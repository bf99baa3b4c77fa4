/**
 * The three stages of `FisbrokerHarvester`: gathering the guids to harvest
 * and sorting them into new, changed and deleted records; fetching each
 * record; importing it into the catalogue. The harvest object table, the
 * gather and object errors and the catalogue live in a `HarvestDatabase`
 * whose fields the stages update; the CSW service, the ISO parser, the
 * date parser and the CKAN actions are parameters.
 */
module Harvest {
  import opened Wrappers
  import opened Text
  import opened Helper
  import opened Iso
  import opened Config
  import opened Packages
  import opened HarvesterPackage

  // ------------------------------------------------------- XML declaration

  /** The declaration the CSW client puts in front of every record it returns. */
  const XML_DECLARATION := "<?xml version=\"1.0\" encoding=\"UTF-8\"?>"

  /** The index of the first line break at or after `i`, or the length of `s`. */
  function LineEnd(s: string, i: nat): (e: nat)
    requires i <= |s|
    ensures i <= e <= |s|
    ensures forall k :: i <= k < e ==> s[k] != '\n'
    ensures e < |s| ==> s[e] == '\n'
    decreases |s| - i
  {
    if i == |s| || s[i] == '\n' then i else LineEnd(s, i + 1)
  }

  /** `?>` starts at index `k` of `s`. */
  predicate CloseAt(s: string, k: int) {
    0 <= k && k + 2 <= |s| && s[k] == '?' && s[k + 1] == '>'
  }

  /** The last `?>` that starts at or after `lo` and ends by `hi`. */
  function LastClose(s: string, lo: nat, hi: nat): (j: Option<nat>)
    requires lo <= hi <= |s|
    ensures j.Some? ==> lo <= j.value && j.value + 2 <= hi && CloseAt(s, j.value)
    ensures j.Some? ==> forall k :: j.value < k && k + 2 <= hi ==> !CloseAt(s, k)
    ensures j.None? ==> forall k :: lo <= k && k + 2 <= hi ==> !CloseAt(s, k)
    decreases hi
  {
    if hi < lo + 2 then None
    else if CloseAt(s, hi - 2) then Some(hi - 2)
    else LastClose(s, lo, hi - 1)
  }

  /**
   * `re.sub('<\?xml(.*)\?>', '', s)`: scanning from the left, a `<?xml`
   * starts a match that runs to the last `?>` on its line (`.` does not
   * match a line break, and `*` is greedy); each match is removed and the
   * scan goes on after it.
   */
  function StripDeclarations(s: string): (r: string)
    ensures |r| <= |s|
    decreases |s|
  {
    if s == [] then []
    else if StartsWith(s, "<?xml") && LastClose(s, 5, LineEnd(s, 5)).Some? then
      StripDeclarations(s[LastClose(s, 5, LineEnd(s, 5)).value + 2..])
    else [s[0]] + StripDeclarations(s[1..])
  }

  /** Text without `<?xml` passes unchanged. */
  lemma {:induction false} NoDeclarationUnchanged(s: string)
    requires !Contains(s, "<?xml")
    ensures StripDeclarations(s) == s
    decreases |s|
  {
    if s != [] {
      NoDeclarationUnchanged(s[1..]);
    }
  }

  /** A text that starts with a line break does not start a declaration after it. */
  lemma NewlineThenNoDeclaration(xml: string)
    requires !Contains(xml, "<?xml")
    ensures !Contains("\n" + xml, "<?xml")
  {
    assert ("\n" + xml)[1..] == xml;
    assert ("\n" + xml)[0] == '\n';
  }

  /**
   * A declaration line in front of a record is removed with nothing else:
   * what the CSW client returns comes back as the record it wrapped.
   */
  lemma DeclarationRemoved(declaration: string, xml: string)
    requires StartsWith(declaration, "<?xml") && EndsWith(declaration, "?>") && |declaration| >= 7
    requires '\n' !in declaration
    requires !Contains(xml, "<?xml")
    ensures StripDeclarations(declaration + "\n" + xml) == "\n" + xml
  {
    var rest := "\n" + xml;
    var s := declaration + rest;
    assert s == declaration + "\n" + xml;
    var d := |declaration|;
    assert StartsWith(s, "<?xml") by {
      assert s[..5] == declaration[..5];
    }
    assert s[d] == '\n';
    var e := LineEnd(s, 5);
    assert e == d;
    assert CloseAt(s, d - 2) by {
      assert s[d - 2] == declaration[d - 2] == declaration[d - 2..][0];
      assert s[d - 1] == declaration[d - 1] == declaration[d - 2..][1];
    }
    assert LastClose(s, 5, d) == Some(d - 2);
    assert s[d..] == rest;
    NewlineThenNoDeclaration(xml);
    NoDeclarationUnchanged(rest);
  }

  /** The record content `fetch_stage` stores: the declarations removed, then whitespace stripped. */
  function StoredContent(xml: string): string {
    Trim(StripDeclarations(xml))
  }

  /** The CSW client's declaration is one line that opens with `<?xml` and closes with `?>`. */
  lemma ClientDeclarationShape()
    ensures StartsWith(XML_DECLARATION, "<?xml") && EndsWith(XML_DECLARATION, "?>")
    ensures |XML_DECLARATION| >= 7 && '\n' !in XML_DECLARATION
  {
    var x := XML_DECLARATION;
    assert x[0] == '<' && x[1] == '?' && x[2] == 'x' && x[3] == 'm' && x[4] == 'l';
    assert x[..5] == "<?xml";
    assert x[|x| - 2] == '?' && x[|x| - 1] == '>';
    assert x[|x| - 2..] == "?>";
  }

  /** The CSW client's own declaration is one such line. */
  lemma ClientDeclarationStripped(xml: string)
    requires !Contains(xml, "<?xml")
    ensures StoredContent(XML_DECLARATION + "\n" + xml) == Trim("\n" + xml)
  {
    ClientDeclarationShape();
    DeclarationRemoved(XML_DECLARATION, xml);
  }

  // --------------------------------------------------------- harvest objects

  /**
   * A row of the harvest object table: the record's guid, the job and source
   * it belongs to, the package it made, its extras (`status`, `error`),
   * whether it is the current object for its guid, the fetched XML and the
   * document's modification date (seconds).
   */
  datatype HarvestObject = HarvestObject(
    guid: string,
    jobId: string,
    sourceId: string,
    packageId: Option<string>,
    extras: seq<Extra>,
    current: bool,
    content: Option<string>,
    metadataModified: Option<int>)

  /** `_get_object_extra`: the value of the first extra with the key. */
  function ObjectExtra(extras: seq<Extra>, key: string): (v: Option<string>)
    ensures v.None? <==> forall i :: 0 <= i < |extras| ==> extras[i].key != key
    ensures v.Some? ==> exists i :: 0 <= i < |extras| && extras[i] == Extra(key, v.value)
  {
    if extras == [] then None
    else if extras[0].key == key then Some(extras[0].value)
    else
      var v := ObjectExtra(extras[1..], key);
      assert v.Some? ==> exists i :: 0 <= i < |extras[1..]| && extras[1..][i] == Extra(key, v.value);
      v
  }

  /** The object `gather_stage` saves: not yet current, no content, one `status` extra. */
  function Created(guid: string, jobId: string, sourceId: string, status: string, packageId: Option<string>): HarvestObject {
    HarvestObject(guid, jobId, sourceId, packageId, [Extra("status", status)], false, None, None)
  }

  /** The gather errors a job can leave. */
  datatype GatherError = ClientSetupFailed | IdentifiersFailed | NoRecords
  datatype GatherFailure = GatherFailure(jobId: string, error: GatherError)

  /** The object errors the fetch and import stages can leave. */
  datatype ObjectErrorKind =
    | SetupFailed | RecordFailed | EmptyRecord
    | EmptyContent | ParseFailed | GuidTaken(guid: string) | NoMetadataDate | ValidationFailed
  datatype ObjectError = ObjectError(objectId: nat, kind: ObjectErrorKind)

  /** The catalogue actions the import stage calls. */
  datatype Action =
    | PackageCreate(newId: string, package: PackageDict)
    | PackageUpdate(id: Option<string>, package: PackageDict)
    | PackageDelete(id: Option<string>)

  // ------------------------------------------------------------ gather stage

  /** A current object of the source. */
  predicate LocalCurrent(o: HarvestObject, sourceId: string) {
    o.current && o.sourceId == sourceId
  }

  /** The guids of the source's current objects: the keys of `guid_to_package_id`. */
  function LocalGuids(objects: map<nat, HarvestObject>, sourceId: string): set<string> {
    set id | id in objects && LocalCurrent(objects[id], sourceId) :: objects[id].guid
  }

  /** Some current object of the source has the guid and the package id. */
  predicate Stored(objects: map<nat, HarvestObject>, sourceId: string, guid: string, packageId: Option<string>) {
    exists id :: id in objects && LocalCurrent(objects[id], sourceId) && objects[id].guid == guid
                 && objects[id].packageId == packageId
  }

  /** The identifiers a `getidentifiers` listing yields, `None` skipped. */
  function IdentifierSet(identifiers: seq<Option<string>>): set<string> {
    set i | 0 <= i < |identifiers| && identifiers[i].Some? :: identifiers[i].value
  }

  /**
   * The constrained and the complete identifier sets: with no constraints
   * the complete set is the constrained one; a listing that fails or
   * constraints that cannot be computed fail the gathering.
   */
  function RemoteGuids(constraints: Result<seq<Constraint>>,
                       identifiers: seq<Constraint> -> Result<seq<Option<string>>>): Result<(set<string>, set<string>)> {
    if constraints.Err? then Err(constraints.error)
    else match identifiers(constraints.value)
      case Err(e) => Err(e)
      case Ok(constrained) =>
        if constraints.value == [] then Ok((IdentifierSet(constrained), IdentifierSet(constrained)))
        else match identifiers([])
          case Err(e) => Err(e)
          case Ok(complete) => Ok((IdentifierSet(constrained), IdentifierSet(complete)))
  }

  /** The object's `status` extra. */
  function Status(o: HarvestObject): Option<string> {
    ObjectExtra(o.extras, "status")
  }

  /** `update({'current': False})` on every object with one of the guids. */
  function Retired(objects: map<nat, HarvestObject>, guids: set<string>): (r: map<nat, HarvestObject>)
    ensures r.Keys == objects.Keys
  {
    map id | id in objects :: if objects[id].guid in guids then objects[id].(current := false) else objects[id]
  }

  /**
   * The three-way split of `gather_stage`: with `C` the constrained remote
   * set, `U` the complete remote set and `L` the local guids, the new guids
   * are `C - L`, the changed `L * C` and the deleted `L - U`. No guid is
   * both new and changed or new and deleted, the new and changed guids are
   * exactly the constrained set, and when the constrained set lies within
   * the complete one (as it does without constraints) the three are
   * pairwise disjoint and every local guid is either changed or deleted or
   * was left out of the constrained listing.
   */
  lemma ReconcileSplit(constrained: set<string>, complete: set<string>, local: set<string>)
    ensures (constrained - local) !! (local * constrained) && (constrained - local) !! (local - complete)
    ensures (constrained - local) + (local * constrained) == constrained
    ensures constrained <= complete ==> (local * constrained) !! (local - complete)
    ensures constrained == complete ==> (local * constrained) + (local - complete) == local
  {
  }

  /** The ids `lo`, ..., `hi - 1` in order. */
  function Ids(lo: nat, hi: nat): (ids: seq<nat>)
    requires lo <= hi
    ensures |ids| == hi - lo && forall k :: 0 <= k < |ids| ==> ids[k] == lo + k
  {
    seq(hi - lo, k requires 0 <= k < hi - lo => lo + k)
  }

  /** An object `gather_stage` saved for a guid of one of the three sets, with the package id it knew for it. */
  ghost predicate Planned(o: HarvestObject, before: map<nat, HarvestObject>, jobId: string, sourceId: string,
                          newGuids: set<string>, changed: set<string>, deleted: set<string>) {
    (o.guid in newGuids && o == Created(o.guid, jobId, sourceId, "new", None))
    || (o.guid in changed && o == Created(o.guid, jobId, sourceId, "change", o.packageId)
        && Stored(before, sourceId, o.guid, o.packageId))
    || (o.guid in deleted && o == Created(o.guid, jobId, sourceId, "delete", o.packageId)
        && Stored(before, sourceId, o.guid, o.packageId))
  }

  /** One of the objects with ids `lo` to `hi - 1` was saved for the guid with the status. */
  ghost predicate HasObject(after: map<nat, HarvestObject>, lo: nat, hi: nat, guid: string, jobId: string,
                            sourceId: string, status: string) {
    exists id :: lo <= id < hi && id in after && after[id] == Created(guid, jobId, sourceId, status, after[id].packageId)
  }

  /**
   * The object table after gathering the three sets: the objects of the
   * deleted guids retired, then one object per guid of each set, with the
   * set's status, appended under fresh ids.
   */
  ghost predicate Gathered(before: map<nat, HarvestObject>, lo: nat, after: map<nat, HarvestObject>, hi: nat,
                           jobId: string, sourceId: string, newGuids: set<string>, changed: set<string>, deleted: set<string>) {
    lo <= hi && hi - lo == |newGuids| + |changed| + |deleted|
    && TableAfter(before, lo, after, hi, deleted)
    && AllPlanned(before, lo, after, hi, jobId, sourceId, newGuids, changed, deleted)
    && Covers(after, lo, hi, newGuids, jobId, sourceId, "new")
    && Covers(after, lo, hi, changed, jobId, sourceId, "change")
    && Covers(after, lo, hi, deleted, jobId, sourceId, "delete")
  }

  /** The old objects kept, those of the deleted guids retired, and new ids `lo` to `hi - 1` added. */
  ghost predicate TableAfter(before: map<nat, HarvestObject>, lo: nat, after: map<nat, HarvestObject>, hi: nat,
                             deleted: set<string>) {
    (forall id :: id in after <==> id in before || lo <= id < hi)
    && (forall id :: id in before ==> after[id] == RetireIf(before[id], before[id].guid in deleted))
  }

  /** Every new object is planned. */
  ghost predicate AllPlanned(before: map<nat, HarvestObject>, lo: nat, after: map<nat, HarvestObject>, hi: nat,
                             jobId: string, sourceId: string, newGuids: set<string>, changed: set<string>,
                             deleted: set<string>) {
    forall id :: lo <= id < hi ==> id in after && Planned(after[id], before, jobId, sourceId, newGuids, changed, deleted)
  }

  /** Every guid of the set has an object with the status. */
  ghost predicate Covers(after: map<nat, HarvestObject>, lo: nat, hi: nat, guids: set<string>, jobId: string,
                         sourceId: string, status: string) {
    forall g :: g in guids ==> HasObject(after, lo, hi, g, jobId, sourceId, status)
  }

  /** The object `gather_stage` saves for a guid: with its stored package id unless the guid is new. */
  function CreatedFor(guid: string, jobId: string, sourceId: string, status: string,
                      packageIds: map<string, Option<string>>): HarvestObject {
    Created(guid, jobId, sourceId, status, if status == "new" || guid !in packageIds then None else packageIds[guid])
  }

  /** The object, no longer current when `retire` holds. */
  function RetireIf(o: HarvestObject, retire: bool): HarvestObject {
    if retire then o.(current := false) else o
  }

  /**
   * `after` is `before` with one created object per guid saved under the
   * ids `lo` to `hi - 1`, every object of those guids retired first when
   * `retire` holds.
   */
  ghost predicate Appended(before: map<nat, HarvestObject>, lo: nat, after: map<nat, HarvestObject>, hi: nat,
                           guids: set<string>, jobId: string, sourceId: string, status: string,
                           packageIds: map<string, Option<string>>, retire: bool) {
    lo <= hi
    && (forall id :: id in after <==> id in before || lo <= id < hi)
    && (forall id :: id in before ==> after[id] == RetireIf(before[id], retire && before[id].guid in guids))
    && (forall id :: lo <= id < hi ==>
          after[id].guid in guids && after[id] == CreatedFor(after[id].guid, jobId, sourceId, status, packageIds))
  }

  /** Saving one more created object keeps `Appended`. */
  lemma AppendedStep(before: map<nat, HarvestObject>, lo: nat, mid: map<nat, HarvestObject>, hi: nat,
                     after: map<nat, HarvestObject>, guids: set<string>, g: string, jobId: string, sourceId: string,
                     status: string, packageIds: map<string, Option<string>>, retire: bool,
                     holder: map<string, nat>)
    requires Appended(before, lo, mid, hi, guids, jobId, sourceId, status, packageIds, retire)
    requires Holds(mid, lo, hi, guids, holder)
    requires forall id :: id in before ==> id < lo
    requires forall id :: id in after <==> id in mid || id == hi
    requires after[hi] == CreatedFor(g, jobId, sourceId, status, packageIds)
    requires forall id :: id in mid && !mid[id].current ==> after[id] == mid[id]
    requires forall id :: id in mid ==> after[id] == RetireIf(mid[id], retire && mid[id].guid == g)
    ensures Appended(before, lo, after, hi + 1, guids + {g}, jobId, sourceId, status, packageIds, retire)
    ensures Holds(after, lo, hi + 1, guids + {g}, holder[g := hi])
  {
  }

  /** `holder` names, for each guid, an object among the ids `lo` to `hi - 1` saved for it. */
  ghost predicate Holds(after: map<nat, HarvestObject>, lo: nat, hi: nat, guids: set<string>, holder: map<string, nat>) {
    forall g :: g in guids ==> g in holder && lo <= holder[g] < hi && holder[g] in after && after[holder[g]].guid == g
  }

  /**
   * The harvest database the stages work on: the harvest object table
   * (keyed by object id), the gather and object errors, the catalogue's
   * packages and the log of catalogue actions called.
   */
  class HarvestDatabase {
    var objects: map<nat, HarvestObject>
    var nextId: nat
    var gatherErrors: seq<GatherFailure>
    var objectErrors: seq<ObjectError>
    var catalog: seq<Package>
    var actions: seq<Action>

    /** Every object id was handed out before `nextId`. */
    ghost predicate Valid()
      reads this
    {
      forall id :: id in objects ==> id < nextId
    }

    /** An empty object table over a catalogue. */
    constructor (catalog: seq<Package>)
      ensures Valid()
      ensures objects == map[] && nextId == 0 && gatherErrors == [] && objectErrors == []
      ensures this.catalog == catalog && actions == []
    {
      objects := map[];
      nextId := 0;
      gatherErrors := [];
      objectErrors := [];
      this.catalog := catalog;
      actions := [];
    }

    /** `guid_to_package_id`: each local guid with the package id of one of its current objects. */
    method GuidToPackageId(sourceId: string) returns (packageIds: map<string, Option<string>>)
      ensures packageIds.Keys == LocalGuids(objects, sourceId)
      ensures forall g :: g in packageIds ==> Stored(objects, sourceId, g, packageIds[g])
    {
      packageIds := map[];
      var rows := objects.Keys;
      while rows != {}
        invariant rows <= objects.Keys
        invariant forall id :: id in objects && id !in rows && LocalCurrent(objects[id], sourceId) ==>
          objects[id].guid in packageIds
        invariant packageIds.Keys <= LocalGuids(objects, sourceId)
        invariant forall g :: g in packageIds ==> Stored(objects, sourceId, g, packageIds[g])
        decreases rows
      {
        var id :| id in rows;
        if LocalCurrent(objects[id], sourceId) {
          packageIds := packageIds[objects[id].guid := objects[id].packageId];
        }
        rows := rows - {id};
      }
    }

    /**
     * `obj.save()` under the next id, after `update({'current': False})` on
     * every object with its guid when `retire` is set.
     */
    method Save(o: HarvestObject, retire: bool)
      requires Valid()
      modifies this
      ensures Valid()
      ensures gatherErrors == old(gatherErrors) && objectErrors == old(objectErrors)
      ensures catalog == old(catalog) && actions == old(actions)
      ensures nextId == old(nextId) + 1
      ensures forall id :: id in objects <==> id in old(objects) || id == old(nextId)
      ensures objects[old(nextId)] == o
      ensures forall id :: id in old(objects) && !old(objects)[id].current ==> objects[id] == old(objects)[id]
      ensures forall id :: id in old(objects) ==> objects[id] == RetireIf(old(objects)[id], retire && old(objects)[id].guid == o.guid)
    {
      if retire {
        objects := Retired(objects, {o.guid});
      }
      objects := objects[nextId := o];
      nextId := nextId + 1;
    }

    /** One step of `AddObjects`: the object for `g` saved, `Appended` and `Holds` kept. */
    method SaveFor(g: string, jobId: string, sourceId: string, status: string,
                   packageIds: map<string, Option<string>>, retire: bool,
                   ghost before: map<nat, HarvestObject>, ghost lo: nat, ghost done: set<string>,
                   ghost holder: map<string, nat>)
      requires Valid() && forall id :: id in before ==> id < lo
      requires Appended(before, lo, objects, nextId, done, jobId, sourceId, status, packageIds, retire)
      requires Holds(objects, lo, nextId, done, holder)
      modifies this
      ensures Valid()
      ensures gatherErrors == old(gatherErrors) && objectErrors == old(objectErrors)
      ensures catalog == old(catalog) && actions == old(actions)
      ensures nextId == old(nextId) + 1
      ensures Appended(before, lo, objects, nextId, done + {g}, jobId, sourceId, status, packageIds, retire)
      ensures Holds(objects, lo, nextId, done + {g}, holder[g := old(nextId)])
    {
      ghost var mid := objects;
      Save(CreatedFor(g, jobId, sourceId, status, packageIds), retire);
      AppendedStep(before, lo, mid, old(nextId), objects, done, g, jobId, sourceId, status, packageIds, retire, holder);
    }

    /**
     * Save one object per guid with the status (in no particular order,
     * like iterating a Python set), retiring every object of the guid first
     * when `retire` is set.
     */
    method AddObjects(jobId: string, sourceId: string, guids: set<string>, status: string,
                      packageIds: map<string, Option<string>>, retire: bool)
      requires Valid()
      modifies this
      ensures Valid()
      ensures gatherErrors == old(gatherErrors) && objectErrors == old(objectErrors)
      ensures catalog == old(catalog) && actions == old(actions)
      ensures nextId == old(nextId) + |guids|
      ensures Appended(old(objects), old(nextId), objects, nextId, guids, jobId, sourceId, status, packageIds, retire)
      ensures forall g :: g in guids ==> exists id :: old(nextId) <= id < nextId && objects[id].guid == g
    {
      var first := nextId;
      var remaining := guids;
      ghost var done: set<string> := {};
      ghost var holder: map<string, nat> := map[];
      while remaining != {}
        invariant remaining + done == guids && remaining !! done
        invariant Valid()
        invariant gatherErrors == old(gatherErrors) && objectErrors == old(objectErrors)
        invariant catalog == old(catalog) && actions == old(actions)
        invariant nextId == first + |done|
        invariant Appended(old(objects), first, objects, nextId, done, jobId, sourceId, status, packageIds, retire)
        invariant Holds(objects, first, nextId, done, holder)
        decreases remaining
      {
        var g :| g in remaining;
        var id := nextId;
        SaveFor(g, jobId, sourceId, status, packageIds, retire, old(objects), first, done, holder);
        holder := holder[g := id];
        remaining := remaining - {g};
        done := done + {g};
      }
      forall g | g in guids
        ensures exists id :: old(nextId) <= id < nextId && objects[id].guid == g
      {
        assert Holds(objects, first, nextId, done, holder);
        assert objects[holder[g]].guid == g;
      }
    }
  
    /** The three loops of `gather_stage` that save the new, changed and deleted guids' objects. */
    method SaveSplit(jobId: string, sourceId: string, newGuids: set<string>, changed: set<string>,
                     deleted: set<string>, packageIds: map<string, Option<string>>) returns (added: seq<nat>)
      requires Valid()
      requires forall g :: g in packageIds ==> Stored(objects, sourceId, g, packageIds[g])
      requires changed <= packageIds.Keys && deleted <= packageIds.Keys
      modifies this
      ensures Valid()
      ensures gatherErrors == old(gatherErrors) && objectErrors == old(objectErrors)
      ensures catalog == old(catalog) && actions == old(actions)
      ensures old(nextId) <= nextId && added == Ids(old(nextId), nextId)
      ensures Gathered(old(objects), old(nextId), objects, nextId, jobId, sourceId, newGuids, changed, deleted)
    {
      ghost var before := objects;
      var lo := nextId;
      AddObjects(jobId, sourceId, newGuids, "new", packageIds, false);
      ghost var m1 := objects;
      var h1 := nextId;
      AddObjects(jobId, sourceId, changed, "change", packageIds, false);
      ghost var m2 := objects;
      var h2 := nextId;
      AddObjects(jobId, sourceId, deleted, "delete", packageIds, true);
      added := Ids(lo, nextId);
      ChainTable(before, lo, m1, h1, m2, h2, objects, nextId, jobId, sourceId, newGuids, changed, deleted, packageIds);
      ChainPlanned(before, lo, m1, h1, m2, h2, objects, nextId, jobId, sourceId, newGuids, changed, deleted, packageIds);
      AppendedKeepsIdle(m1, h1, m2, h2, changed, jobId, sourceId, "change", packageIds, false);
      AppendedKeepsIdle(m2, h2, objects, nextId, deleted, jobId, sourceId, "delete", packageIds, true);
      CoversKept(m1, lo, h1, objects, newGuids, jobId, sourceId, "new", packageIds);
      CoversKept(m2, h1, h2, objects, changed, jobId, sourceId, "change", packageIds);
      CoversKept(objects, h2, nextId, objects, deleted, jobId, sourceId, "delete", packageIds);
    }

    /**
     * `gather_stage`: a client that cannot be set up or identifiers that
     * cannot be listed leave a gather error and nothing else; otherwise the
     * three-way split is saved as harvest objects, and a split that is empty
     * leaves the "no records" gather error.
     */
    method GatherStage(jobId: string, sourceId: string, clientUp: bool, constraints: Result<seq<Constraint>>,
                       identifiers: seq<Constraint> -> Result<seq<Option<string>>>) returns (ids: Option<seq<nat>>)
      requires Valid()
      modifies this
      ensures Valid()
      ensures objectErrors == old(objectErrors) && catalog == old(catalog) && actions == old(actions)
      ensures !clientUp ==>
        ids.None? && objects == old(objects) && nextId == old(nextId)
        && gatherErrors == old(gatherErrors) + [GatherFailure(jobId, ClientSetupFailed)]
      ensures clientUp && RemoteGuids(constraints, identifiers).Err? ==>
        ids.None? && objects == old(objects) && nextId == old(nextId)
        && gatherErrors == old(gatherErrors) + [GatherFailure(jobId, IdentifiersFailed)]
      ensures clientUp && RemoteGuids(constraints, identifiers).Ok? ==>
        var remote := RemoteGuids(constraints, identifiers).value;
        var local := LocalGuids(old(objects), sourceId);
        Gathered(old(objects), old(nextId), objects, nextId, jobId, sourceId,
                 remote.0 - local, local * remote.0, local - remote.1)
        && (ids.None? <==> nextId == old(nextId))
        && (ids.None? ==> gatherErrors == old(gatherErrors) + [GatherFailure(jobId, NoRecords)])
        && (ids.Some? ==> gatherErrors == old(gatherErrors) && ids.value == Ids(old(nextId), nextId))
    {
      if !clientUp {
        gatherErrors := gatherErrors + [GatherFailure(jobId, ClientSetupFailed)];
        return None;
      }
      var packageIds := GuidToPackageId(sourceId);
      var local := packageIds.Keys;
      if constraints.Err? {
        gatherErrors := gatherErrors + [GatherFailure(jobId, IdentifiersFailed)];
        return None;
      }
      var listing := identifiers(constraints.value);
      if listing.Err? {
        gatherErrors := gatherErrors + [GatherFailure(jobId, IdentifiersFailed)];
        return None;
      }
      var constrained := CollectIdentifiers(listing.value);
      var complete := constrained;
      if constraints.value != [] {
        var everything := identifiers([]);
        if everything.Err? {
          gatherErrors := gatherErrors + [GatherFailure(jobId, IdentifiersFailed)];
          return None;
        }
        complete := CollectIdentifiers(everything.value);
      }

      var newGuids := constrained - local;
      var deleted := local - complete;
      var changed := local * constrained;

      var added := SaveSplit(jobId, sourceId, newGuids, changed, deleted, packageIds);
      if |added| == 0 {
        gatherErrors := gatherErrors + [GatherFailure(jobId, NoRecords)];
        return None;
      }
      return Some(added);
    }

    /**
     * `fetch_stage`: an object to be deleted needs nothing. Otherwise the
     * client is set up in at most `retries` attempts, stopping at the first
     * that works; then the record is fetched and stored without its XML
     * declaration. Each failure leaves one object error and gives `false`.
     */
    method FetchStage(id: nat, retries: nat, setup: nat -> bool, record: Result<Option<string>>)
      returns (ok: bool, attempts: nat)
      requires Valid() && id in objects
      modifies this
      ensures Valid() && nextId == old(nextId)
      ensures gatherErrors == old(gatherErrors) && catalog == old(catalog) && actions == old(actions)
      ensures Status(old(objects)[id]) == Some("delete") ==>
        ok && attempts == 0 && objects == old(objects) && objectErrors == old(objectErrors)
      ensures Status(old(objects)[id]) != Some("delete") ==>
        attempts <= retries
        && (FirstSetup(setup, 1, retries).Some? ==> attempts == FirstSetup(setup, 1, retries).value)
        && (FirstSetup(setup, 1, retries).None? ==> attempts == retries)
        && (ok <==> FetchOutcome(retries, setup, record).Content?)
        && (ok ==> objectErrors == old(objectErrors)
                   && objects == old(objects)[id := old(objects)[id].(content := Some(FetchOutcome(retries, setup, record).xml))])
        && (!ok ==> objects == old(objects)
                    && objectErrors == old(objectErrors) + [ObjectError(id, FetchError(FetchOutcome(retries, setup, record)))])
    {
      if Status(objects[id]) == Some("delete") {
        return true, 0;
      }
      attempts := 0;
      for attempt := 1 to retries + 1
        invariant attempts == attempt - 1
        invariant FirstSetup(setup, 1, retries) == FirstSetup(setup, attempt, retries)
        invariant attempt == retries + 1 ==> retries == 0
      {
        attempts := attempt;
        if setup(attempt) {
          break;
        }
        if attempt == retries {
          objectErrors := objectErrors + [ObjectError(id, SetupFailed)];
          return false, attempts;
        }
      }
      match record
      case Err(_) =>
        objectErrors := objectErrors + [ObjectError(id, RecordFailed)];
        return false, attempts;
      case Ok(None) =>
        objectErrors := objectErrors + [ObjectError(id, EmptyRecord)];
        return false, attempts;
      case Ok(Some(xml)) =>
        objects := objects[id := objects[id].(content := Some(StoredContent(xml)))];
        return true, attempts;
    }

    /**
     * The first part of `import_stage`: find the previous current object
     * with the guid, delete the package of an object to be deleted, and
     * otherwise parse the document, retire the previous object, settle the
     * guid and read the metadata date, as `Began` says.
     */
    method BeginImport(id: nat, force: bool, parseIso: string -> Option<IsoValues>, md5: string -> string,
                       parseDate: string -> Option<int>) returns (begun: Begun, previous: Option<nat>)
      requires Valid() && id in objects
      modifies this
      ensures Valid() && nextId == old(nextId) && objects.Keys == old(objects).Keys
      ensures gatherErrors == old(gatherErrors) && catalog == old(catalog)
      ensures PreviousObject(old(objects), old(objects)[id].guid, previous)
      ensures StartStatus(old(objects)[id], force) == Some("delete") ==>
        begun == Done(Imported) && objects == old(objects) && objectErrors == old(objectErrors)
        && actions == old(actions) + [PackageDelete(old(objects)[id].packageId)]
      ensures objects[id].extras == old(objects)[id].extras
      ensures begun.Done? ==> begun.result == Imported || begun.result == Failed
      ensures begun.Ready? ==> Document(old(objects)[id], parseIso) == Some(begun.iso)
      ensures StartStatus(old(objects)[id], force) != Some("delete") && Document(old(objects)[id], parseIso).None? ==>
        begun == Done(Failed) && objects == old(objects) && actions == old(actions)
      ensures StartStatus(old(objects)[id], force) != Some("delete") ==>
        actions == old(actions)
        && Began(old(objects), id, force, previous, parseIso, md5, parseDate, begun, objects, old(objectErrors), objectErrors)
    {
      var o := objects[id];
      var status := StartStatus(o, force);
      previous := None;
      if exists p :: p in objects && objects[p].guid == o.guid && objects[p].current {
        var p :| p in objects && objects[p].guid == o.guid && objects[p].current;
        previous := Some(p);
      }
      if status == Some("delete") {
        actions := actions + [PackageDelete(o.packageId)];
        return Done(Imported), previous;
      }
      if o.content.None? {
        objectErrors := objectErrors + [ObjectError(id, EmptyContent)];
        return Done(Failed), previous;
      }
      var content := o.content.value;
      var parsed := parseIso(content);
      if parsed.None? {
        objectErrors := objectErrors + [ObjectError(id, ParseFailed)];
        return Done(Failed), previous;
      }
      begun := Settle(id, parsed.value, content, force, previous, md5, parseDate);
    }

    /** `Settled`: the part of `import_stage` from retiring the previous object to reading the metadata date. */
    method Settle(id: nat, iso: IsoValues, content: string, force: bool, previous: Option<nat>, md5: string -> string,
                  parseDate: string -> Option<int>) returns (begun: Begun)
      requires Valid() && id in objects
      modifies this
      ensures Valid() && nextId == old(nextId) && objects.Keys == old(objects).Keys
      ensures gatherErrors == old(gatherErrors) && catalog == old(catalog) && actions == old(actions)
      ensures Settled(old(objects), id, iso, md5(content), force, previous, parseDate, begun, objects,
                      old(objectErrors), objectErrors)
      ensures objects[id].extras == old(objects)[id].extras
      ensures objects[id].current == (old(objects)[id].current && !(previous == Some(id) && !force))
    {
      if previous.Some? && !force && previous.value in objects {
        objects := objects[previous.value := objects[previous.value].(current := false)];
      }
      begun := SettleGuid(id, iso, content, md5, parseDate);
    }

    /** `GuidSettled`: the guid checks and the metadata date. */
    method SettleGuid(id: nat, iso: IsoValues, content: string, md5: string -> string,
                      parseDate: string -> Option<int>) returns (begun: Begun)
      requires Valid() && id in objects
      modifies this
      ensures Valid() && nextId == old(nextId) && objects.Keys == old(objects).Keys
      ensures gatherErrors == old(gatherErrors) && catalog == old(catalog) && actions == old(actions)
      ensures GuidSettled(old(objects), id, iso, md5(content), parseDate, begun, objects, old(objectErrors), objectErrors)
      ensures objects[id].extras == old(objects)[id].extras && objects[id].current == old(objects)[id].current
    {
      var guid := objects[id].guid;
      if iso.guid != "" && guid != iso.guid {
        if exists q :: q in objects && objects[q].guid == iso.guid && objects[q].current {
          objectErrors := objectErrors + [ObjectError(id, GuidTaken(iso.guid))];
          return Done(Failed);
        }
        guid := iso.guid;
      }
      if guid == "" {
        guid := md5(content);
      }
      var modified := parseDate(iso.metadataDate);
      if modified.None? {
        objects := objects[id := objects[id].(guid := guid)];
        objectErrors := objectErrors + [ObjectError(id, NoMetadataDate)];
        return Done(Failed);
      }
      objects := objects[id := objects[id].(guid := guid, metadataModified := modified)];
      return Ready(iso);
    }

    /**
     * The last part of `import_stage`, once the package dict is built: the
     * object becomes current, the package is looked up by name (and else by
     * the object's package id), the status is resolved, and the package is
     * created, updated or left alone as `Finished` says.
     */
    method FinishImport(id: nat, status: Option<string>, force: bool, previous: Option<nat>, package: PackageDict,
                        newId: string, accepts: PackageDict -> bool) returns (r: ImportResult)
      requires Valid() && id in objects
      requires previous.Some? ==> previous.value in objects
      modifies this
      ensures Valid() && nextId == old(nextId) && gatherErrors == old(gatherErrors)
      ensures r != Unchanged
      ensures actions == old(actions)
              || (|actions| == |old(actions)| + 1 && actions[..|old(actions)|] == old(actions)
                  && !actions[|actions| - 1].PackageDelete? && actions[|actions| - 1].package == package)
      ensures package.name.None? ==>
        r == Threw(KeyError("name")) && objects == old(objects)[id := old(objects)[id].(current := true)]
        && catalog == old(catalog) && actions == old(actions) && objectErrors == old(objectErrors)
      ensures package.name.Some? ==>
        Finished(old(objects), old(catalog), old(actions), old(objectErrors), id, status, force, previous, package,
                 newId, accepts, r, objects, catalog, actions, objectErrors)
    {
      if package.name.None? {
        objects := objects[id := objects[id].(current := true)];
        return Threw(KeyError("name"));
      }
      var byName := PackageGet(catalog, package.name.value);
      objects := objects[id := Claimed(objects[id], status, byName)];
      var found := Found(catalog, byName, objects[id].packageId);
      var resolved := ResolvedStatus(status, byName.Some?, found.Some?);
      if resolved == Some("new") {
        r := CreatePackage(id, package, newId, accepts);
      } else if resolved == Some("change") {
        catalog := Reactivated(catalog, found.value);
        r := ChangePackage(id, force, previous, package, accepts);
      } else {
        r := Imported;
      }
    }

    /** The "new" branch of `import_stage`: a fresh package id on the object, then `package_create`. */
    method CreatePackage(id: nat, package: PackageDict, newId: string, accepts: PackageDict -> bool)
      returns (r: ImportResult)
      requires Valid() && id in objects
      modifies this
      ensures Valid() && nextId == old(nextId) && gatherErrors == old(gatherErrors) && catalog == old(catalog)
      ensures r != Unchanged
      ensures actions == old(actions)
              || (|actions| == |old(actions)| + 1 && actions[..|old(actions)|] == old(actions)
                  && !actions[|actions| - 1].PackageDelete? && actions[|actions| - 1].package == package)
      ensures PackageCreated(old(objects), old(actions), old(objectErrors), id, package, newId, accepts, r,
                      objects, actions, objectErrors)
    {
      objects := objects[id := objects[id].(packageId := Some(newId))];
      if accepts(package) {
        actions := actions + [PackageCreate(newId, package)];
        return Imported;
      }
      objectErrors := objectErrors + [ObjectError(id, ValidationFailed)];
      return Failed;
    }

    /**
     * The "change" branch of `import_stage`: a record not newer than the
     * previous object's (unless forced) hands the previous object's job to
     * this one and deletes the previous object; otherwise `package_update`.
     */
    method ChangePackage(id: nat, force: bool, previous: Option<nat>, package: PackageDict, accepts: PackageDict -> bool)
      returns (r: ImportResult)
      requires Valid() && id in objects
      requires previous.Some? ==> previous.value in objects
      modifies this
      ensures Valid() && nextId == old(nextId) && gatherErrors == old(gatherErrors) && catalog == old(catalog)
      ensures r != Unchanged
      ensures actions == old(actions)
              || (|actions| == |old(actions)| + 1 && actions[..|old(actions)|] == old(actions)
                  && !actions[|actions| - 1].PackageDelete? && actions[|actions| - 1].package == package)
      ensures PackageChanged(old(objects), old(actions), old(objectErrors), id, force, previous, package, accepts, r,
                      objects, actions, objectErrors)
    {
      if !force && previous.Some? {
        var p := previous.value;
        if objects[id].metadataModified.None? || objects[p].metadataModified.None? {
          return Threw(TypeError);
        }
        if objects[id].metadataModified.value <= objects[p].metadataModified.value {
          var o := objects[id].(jobId := objects[p].jobId);
          objects := objects[id := o] - {p};
          return Imported;
        }
      }
      if accepts(package) {
        actions := actions + [PackageUpdate(objects[id].packageId, package)];
        return Imported;
      }
      objectErrors := objectErrors + [ObjectError(id, ValidationFailed)];
      return Failed;
    }

    /**
     * The package dict of `import_stage`: the generic one for the document,
     * passed through `get_package_dict` with the object's extras, where a
     * rejected record leaves its `error` extra.
     */
    method BuildPackage(id: nat, iso: IsoValues, basePackage: IsoValues -> PackageDict, parse: string -> Parsed,
                        munge: string -> string) returns (built: Result<Outcome>)
      requires Valid() && id in objects
      modifies this
      ensures Valid() && nextId == old(nextId) && objects.Keys == old(objects).Keys
      ensures gatherErrors == old(gatherErrors) && objectErrors == old(objectErrors)
      ensures catalog == old(catalog) && actions == old(actions)
      ensures Gates(iso, parse).Reject? ==>
        built == Ok(Skip)
        && objects == old(objects)[id := old(objects)[id].(extras := old(objects)[id].extras
                                           + [Extra("error", ErrorJson(Gates(iso, parse).code, Gates(iso, parse).description))])]
      ensures !Gates(iso, parse).Reject? ==> objects == old(objects) && built != Ok(Skip)
      ensures built.Ok? && built.value.Built? ==> Saved(iso, basePackage, parse, munge, built.value.package)
    {
      var objectExtras;
      built, objectExtras := GetPackageDict(basePackage(iso), iso, Some(objects[id].extras), parse, munge);
      objects := objects[id := objects[id].(extras := objectExtras.value)];
    }

    /**
     * `import_stage` for the object `id`: begin as `BeginImport` says; build
     * the package dict from the ISO values (`basePackage` stands for the
     * generic part) and pass it through `get_package_dict`, whose `error`
     * extra stays on the object; a record it skips is `'unchanged'`; a
     * package dict it builds is saved as `FinishImport` says. Whether that
     * save is a `package_create` or a `package_update` follows the status
     * and the catalog lookups as `ActionFollowsStatus` states.
     */
    method ImportStage(id: nat, force: bool, parseIso: string -> Option<IsoValues>, md5: string -> string,
                       parseDate: string -> Option<int>, basePackage: IsoValues -> PackageDict,
                       parse: string -> Parsed, munge: string -> string, newId: string, accepts: PackageDict -> bool)
      returns (r: ImportResult, ghost document: Option<IsoValues>)
      requires Valid() && id in objects
      modifies this
      ensures Valid() && nextId == old(nextId) && gatherErrors == old(gatherErrors)
      ensures StartStatus(old(objects)[id], force) == Some("delete") ==>
        r == Imported && objects == old(objects) && catalog == old(catalog) && objectErrors == old(objectErrors)
        && actions == old(actions) + [PackageDelete(old(objects)[id].packageId)]
      ensures StartStatus(old(objects)[id], force) != Some("delete") ==>
        document == Document(old(objects)[id], parseIso)
      ensures document.None? && StartStatus(old(objects)[id], force) != Some("delete") ==>
        r == Failed && objects == old(objects) && catalog == old(catalog) && actions == old(actions)
      ensures r == Unchanged ==>
        document.Some? && Gates(document.value, parse).Reject?
        && catalog == old(catalog) && actions == old(actions)
        && id in objects
        && objects[id].extras == old(objects)[id].extras
                                 + [Extra("error", ErrorJson(Gates(document.value, parse).code,
                                                             Gates(document.value, parse).description))]
      ensures |actions| > |old(actions)| && !actions[|actions| - 1].PackageDelete? ==>
        document.Some? && Saved(document.value, basePackage, parse, munge, actions[|actions| - 1].package)
    {
      var status := StartStatus(objects[id], force);
      document := Document(objects[id], parseIso);
      var begun, previous := BeginImport(id, force, parseIso, md5, parseDate);
      if begun.Done? {
        return begun.result, document;
      }
      r := ImportDocument(id, begun.iso, status, force, previous, basePackage, parse, munge, newId, accepts);
    }

    /**
     * The rest of `import_stage` once the document is parsed and settled:
     * build the package dict, then save it. Which of `package_create` and
     * `package_update` the save issues is stated by `ActionFollowsStatus`.
     */
    method ImportDocument(id: nat, iso: IsoValues, status: Option<string>, force: bool, previous: Option<nat>,
                          basePackage: IsoValues -> PackageDict, parse: string -> Parsed, munge: string -> string,
                          newId: string, accepts: PackageDict -> bool) returns (r: ImportResult)
      requires Valid() && id in objects
      requires previous.Some? ==> previous.value in objects
      modifies this
      ensures Valid() && nextId == old(nextId) && gatherErrors == old(gatherErrors)
      ensures r == Unchanged ==>
        Gates(iso, parse).Reject? && catalog == old(catalog) && actions == old(actions)
        && objects == old(objects)[id := old(objects)[id].(extras := old(objects)[id].extras
                                           + [Extra("error", ErrorJson(Gates(iso, parse).code, Gates(iso, parse).description))])]
      ensures actions == old(actions)
              || (|actions| == |old(actions)| + 1 && actions[..|old(actions)|] == old(actions)
                  && !actions[|actions| - 1].PackageDelete?
                  && Saved(iso, basePackage, parse, munge, actions[|actions| - 1].package))
    {
      var built := BuildPackage(id, iso, basePackage, parse, munge);
      if built.Err? {
        return Threw(built.error);
      }
      if built.value.Skip? {
        return Unchanged;
      }
      r := FinishImport(id, status, force, previous, built.value.package, newId, accepts);
    }
  }

  /** `get_identifiers`: the identifiers a listing yields, `None` skipped. */
  method CollectIdentifiers(identifiers: seq<Option<string>>) returns (guidSet: set<string>)
    ensures guidSet == IdentifierSet(identifiers)
  {
    guidSet := {};
    for i := 0 to |identifiers|
      invariant guidSet == IdentifierSet(identifiers[..i])
    {
      assert identifiers[..i + 1] == identifiers[..i] + [identifiers[i]];
      if identifiers[i].Some? {
        guidSet := guidSet + {identifiers[i].value};
      }
    }
    assert identifiers[..|identifiers|] == identifiers;
  }

  /** A guid is gathered exactly when the listing yields it. */
  lemma IdentifierSetMembers(identifiers: seq<Option<string>>, guid: string)
    ensures guid in IdentifierSet(identifiers) <==> Some(guid) in identifiers
  {
    if Some(guid) in identifiers {
      var i :| 0 <= i < |identifiers| && identifiers[i] == Some(guid);
      assert identifiers[i].value == guid;
    }
  }

  /** A later `AddObjects` leaves the objects that are not current as they were. */
  lemma AppendedKeepsIdle(before: map<nat, HarvestObject>, lo: nat, after: map<nat, HarvestObject>, hi: nat,
                          guids: set<string>, jobId: string, sourceId: string, status: string,
                          packageIds: map<string, Option<string>>, retire: bool)
    requires Appended(before, lo, after, hi, guids, jobId, sourceId, status, packageIds, retire)
    ensures forall id :: id in before && !before[id].current ==> id in after && after[id] == before[id]
  {
  }

  /** The object table after the three `AddObjects` calls. */
  lemma ChainTable(before: map<nat, HarvestObject>, lo: nat, m1: map<nat, HarvestObject>, h1: nat,
                   m2: map<nat, HarvestObject>, h2: nat, after: map<nat, HarvestObject>, hi: nat,
                   jobId: string, sourceId: string, newGuids: set<string>, changed: set<string>,
                   deleted: set<string>, packageIds: map<string, Option<string>>)
    requires forall id :: id in before ==> id < lo
    requires Appended(before, lo, m1, h1, newGuids, jobId, sourceId, "new", packageIds, false)
    requires Appended(m1, h1, m2, h2, changed, jobId, sourceId, "change", packageIds, false)
    requires Appended(m2, h2, after, hi, deleted, jobId, sourceId, "delete", packageIds, true)
    ensures TableAfter(before, lo, after, hi, deleted)
  {
  }

  /** Every object the three `AddObjects` calls save is planned. */
  lemma ChainPlanned(before: map<nat, HarvestObject>, lo: nat, m1: map<nat, HarvestObject>, h1: nat,
                     m2: map<nat, HarvestObject>, h2: nat, after: map<nat, HarvestObject>, hi: nat,
                     jobId: string, sourceId: string, newGuids: set<string>, changed: set<string>,
                     deleted: set<string>, packageIds: map<string, Option<string>>)
    requires forall id :: id in before ==> id < lo
    requires forall g :: g in packageIds ==> Stored(before, sourceId, g, packageIds[g])
    requires changed <= packageIds.Keys && deleted <= packageIds.Keys
    requires Appended(before, lo, m1, h1, newGuids, jobId, sourceId, "new", packageIds, false)
    requires Appended(m1, h1, m2, h2, changed, jobId, sourceId, "change", packageIds, false)
    requires Appended(m2, h2, after, hi, deleted, jobId, sourceId, "delete", packageIds, true)
    ensures AllPlanned(before, lo, after, hi, jobId, sourceId, newGuids, changed, deleted)
  {
    AppendedKeepsIdle(m1, h1, m2, h2, changed, jobId, sourceId, "change", packageIds, false);
    AppendedKeepsIdle(m2, h2, after, hi, deleted, jobId, sourceId, "delete", packageIds, true);
  }

  /** A guid with an object among `lo` to `hi - 1` keeps it through later `AddObjects` calls. */
  lemma CoversKept(m: map<nat, HarvestObject>, lo: nat, hi: nat, after: map<nat, HarvestObject>, guids: set<string>,
                   jobId: string, sourceId: string, status: string, packageIds: map<string, Option<string>>)
    requires forall id :: lo <= id < hi ==> id in m && m[id] == CreatedFor(m[id].guid, jobId, sourceId, status, packageIds)
    requires forall id :: id in m && !m[id].current ==> id in after && after[id] == m[id]
    requires forall g :: g in guids ==> exists id :: lo <= id < hi && m[id].guid == g
    ensures Covers(after, lo, hi, guids, jobId, sourceId, status)
  {
    forall g | g in guids
      ensures HasObject(after, lo, hi, g, jobId, sourceId, status)
    {
      var id :| lo <= id < hi && m[id].guid == g;
      assert after[id] == m[id];
    }
  }

  // ------------------------------------------------------------- fetch stage

  /** The first attempt from `attempt` to `retries` at which the CSW client can be set up. */
  function FirstSetup(setup: nat -> bool, attempt: nat, retries: nat): (a: Option<nat>)
    ensures a.Some? ==> attempt <= a.value <= retries && setup(a.value)
    ensures a.Some? ==> forall k :: attempt <= k < a.value ==> !setup(k)
    ensures a.None? ==> forall k :: attempt <= k <= retries ==> !setup(k)
    decreases retries + 1 - attempt
  {
    if attempt > retries then None
    else if setup(attempt) then Some(attempt)
    else FirstSetup(setup, attempt + 1, retries)
  }

  /** How `fetch_stage` ends for an object that is not to be deleted. */
  datatype Fetched = NoClient | FetchFailed | NoRecord | Content(xml: string)

  /**
   * What `fetch_stage` does once past the status check: with no attempt
   * left that sets up a client it gives up; otherwise the record decides.
   */
  function FetchOutcome(retries: nat, setup: nat -> bool, record: Result<Option<string>>): Fetched {
    if retries > 0 && FirstSetup(setup, 1, retries).None? then NoClient
    else match record
      case Err(_) => FetchFailed
      case Ok(None) => NoRecord
      case Ok(Some(xml)) => Content(StoredContent(xml))
  }

  /** The object error a failed fetch leaves. */
  function FetchError(f: Fetched): ObjectErrorKind {
    match f
    case NoClient => SetupFailed
    case FetchFailed => RecordFailed
    case NoRecord => EmptyRecord
    case Content(_) => SetupFailed
  }

  // ------------------------------------------------------------ import stage

  /** How `import_stage` ends: `True`, `'unchanged'`, `False`, or an exception. */
  datatype ImportResult = Imported | Unchanged | Failed | Threw(error: Error)

  /** How the first part of `import_stage` ends: finished, or ready to build the package from the ISO values. */
  datatype Begun = Done(result: ImportResult) | Ready(iso: IsoValues)

  /** The status `import_stage` starts from: "change" when forced, the object's `status` extra otherwise. */
  function StartStatus(o: HarvestObject, force: bool): Option<string> {
    if force then Some("change") else Status(o)
  }

  /** `previous` is a current object with the guid, or there is none. */
  ghost predicate PreviousObject(objects: map<nat, HarvestObject>, guid: string, previous: Option<nat>) {
    match previous
    case Some(p) => p in objects && objects[p].guid == guid && objects[p].current
    case None => forall p :: p in objects && objects[p].guid == guid ==> !objects[p].current
  }

  /** The previous object flagged as not current, unless the import is forced. */
  function RetirePrevious(objects: map<nat, HarvestObject>, previous: Option<nat>, force: bool): (r: map<nat, HarvestObject>)
    ensures r.Keys == objects.Keys
  {
    if previous.Some? && !force && previous.value in objects
    then objects[previous.value := objects[previous.value].(current := false)]
    else objects
  }

  /** Some current object has the guid. */
  predicate GuidTakenBy(objects: map<nat, HarvestObject>, guid: string) {
    exists q :: q in objects && objects[q].guid == guid && objects[q].current
  }

  /** The guid after the document's: the document's guid when it has a different, non-empty one. */
  function DocumentGuid(guid: string, isoGuid: string): (g: string)
    ensures g == guid || g == isoGuid
    ensures isoGuid != "" ==> g == isoGuid
  {
    if isoGuid != "" && guid != isoGuid then isoGuid else guid
  }

  /** A guid still empty is replaced by the digest of the content. */
  function FinalGuid(guid: string, digest: string): (g: string)
    ensures guid != "" ==> g == guid
    ensures guid == "" ==> g == digest
  {
    if guid == "" then digest else guid
  }

  /**
   * The first part of `import_stage` after the status check: `after` and
   * `errorsAfter` are the object table and errors it leaves, `begun` how it ends.
   * Missing content, an unparsable document, a document guid that a current
   * object already holds and an unreadable metadata date each stop the import
   * with one object error; the previous object is flagged not current (unless
   * forced) before the guid checks.
   */
  ghost predicate Began(before: map<nat, HarvestObject>, id: nat, force: bool, previous: Option<nat>,
                        parseIso: string -> Option<IsoValues>, md5: string -> string, parseDate: string -> Option<int>,
                        begun: Begun, after: map<nat, HarvestObject>, errorsBefore: seq<ObjectError>,
                        errorsAfter: seq<ObjectError>)
    requires id in before
  {
    var o := before[id];
    if o.content.None? then
      begun == Done(Failed) && after == before && errorsAfter == errorsBefore + [ObjectError(id, EmptyContent)]
    else if parseIso(o.content.value).None? then
      begun == Done(Failed) && after == before && errorsAfter == errorsBefore + [ObjectError(id, ParseFailed)]
    else Settled(before, id, parseIso(o.content.value).value, md5(o.content.value), force, previous, parseDate,
                 begun, after, errorsBefore, errorsAfter)
  }

  /**
   * The part of `Began` once the document is parsed: the previous object
   * retired, then a document guid a current object already holds stops the
   * import; otherwise the object takes the document's guid (or the digest
   * when it has none) and the metadata date.
   */
  ghost predicate Settled(before: map<nat, HarvestObject>, id: nat, iso: IsoValues, digest: string, force: bool,
                          previous: Option<nat>, parseDate: string -> Option<int>, begun: Begun,
                          after: map<nat, HarvestObject>, errorsBefore: seq<ObjectError>, errorsAfter: seq<ObjectError>)
    requires id in before
  {
    GuidSettled(RetirePrevious(before, previous, force), id, iso, digest, parseDate, begun, after, errorsBefore, errorsAfter)
  }

  /** `Settled` once the previous object is retired. */
  ghost predicate GuidSettled(retired: map<nat, HarvestObject>, id: nat, iso: IsoValues, digest: string,
                              parseDate: string -> Option<int>, begun: Begun, after: map<nat, HarvestObject>,
                              errorsBefore: seq<ObjectError>, errorsAfter: seq<ObjectError>)
    requires id in retired
  {
    var guid := DocumentGuid(retired[id].guid, iso.guid);
    if guid != retired[id].guid && GuidTakenBy(retired, guid) then
      begun == Done(Failed) && after == retired && errorsAfter == errorsBefore + [ObjectError(id, GuidTaken(guid))]
    else
      match parseDate(iso.metadataDate)
      case None =>
        begun == Done(Failed) && after == retired[id := retired[id].(guid := FinalGuid(guid, digest))]
        && errorsAfter == errorsBefore + [ObjectError(id, NoMetadataDate)]
      case Some(d) =>
        begun == Ready(iso) && after == retired[id := retired[id].(guid := FinalGuid(guid, digest), metadataModified := Some(d))]
        && errorsAfter == errorsBefore
  }

  /**
   * The status the package is saved under: a new record whose package name
   * is taken changes that package, and a change without any package found
   * (by name or by the object's package id) creates one.
   */
  function ResolvedStatus(status: Option<string>, byName: bool, found: bool): Option<string> {
    if status == Some("new") && byName then Some("change")
    else if status == Some("change") && !found then Some("new")
    else status
  }

  /** The resolved status is "change" exactly when a package was found for a new or changed record. */
  lemma ResolvedChangeIffFound(status: Option<string>, byName: bool, found: bool)
    requires byName ==> found
    requires status == Some("new") || status == Some("change")
    ensures ResolvedStatus(status, byName, found) == Some("change") <==> (found && (status == Some("change") || byName))
    ensures ResolvedStatus(status, byName, found) == Some("new") <==> !(found && (status == Some("change") || byName))
  {
  }

  /** The object once flagged current, with the package found by name claimed for a new record. */
  function Claimed(o: HarvestObject, status: Option<string>, byName: Option<Package>): HarvestObject {
    var o' := o.(current := true);
    if status == Some("new") && byName.Some? then o'.(packageId := Some(byName.value.id)) else o'
  }

  /** The package found by name, or else by the object's package id. */
  function Found(catalog: seq<Package>, byName: Option<Package>, packageId: Option<string>): (p: Option<Package>)
    ensures byName.Some? ==> p == byName
    ensures byName.None? && p.Some? ==> p.value in catalog
  {
    if byName.Some? then byName
    else if packageId.Some? then PackageGet(catalog, packageId.value)
    else None
  }

  /** `package.state = "active"` for a deleted package. */
  function Reactivated(catalog: seq<Package>, p: Package): (r: seq<Package>)
    ensures |r| == |catalog|
    ensures forall i :: 0 <= i < |catalog| ==>
      r[i] == if catalog[i].id == p.id && catalog[i].state == "deleted" then catalog[i].(state := "active") else catalog[i]
  {
    seq(|catalog|, i requires 0 <= i < |catalog| =>
      if catalog[i].id == p.id && catalog[i].state == "deleted" then catalog[i].(state := "active") else catalog[i])
  }

  /** The record is not newer than the previous object's: the change is skipped. */
  predicate NotNewer(modified: Option<int>, previousModified: Option<int>) {
    modified.Some? && previousModified.Some? && modified.value <= previousModified.value
  }

  /** The document `import_stage` parses from the object's content, if it has any. */
  function Document(o: HarvestObject, parseIso: string -> Option<IsoValues>): Option<IsoValues> {
    if o.content.Some? then parseIso(o.content.value) else None
  }

  /**
   * The package dict `import_stage` saves is the one `get_package_dict`
   * builds from the generic package dict of the document: every gate passed
   * and the fields and extras completed.
   */
  ghost predicate Saved(iso: IsoValues, basePackage: IsoValues -> PackageDict, parse: string -> Parsed,
                        munge: string -> string, saved: PackageDict)
  {
    Gates(iso, parse).Pass?
    && var license := LastUsable(iso.limitationsOnPublicAccess, parse).value;
    && ExtrasBuilt(basePackage(iso).extras, license.attributionText, iso.datasetReferenceDate, saved.extras)
    && FieldsCompleted(WithMetadata(basePackage(iso), iso, HarvesterLicenseFix(license.licenseId)), iso, munge, saved)
  }

  /**
   * What the last part of `import_stage` does for a package dict with a
   * name, given the object table, catalogue, actions and errors before it.
   */
  ghost predicate Finished(before: map<nat, HarvestObject>, catalogBefore: seq<Package>, actionsBefore: seq<Action>,
                           errorsBefore: seq<ObjectError>, id: nat, status: Option<string>, force: bool,
                           previous: Option<nat>, package: PackageDict, newId: string, accepts: PackageDict -> bool,
                           r: ImportResult, after: map<nat, HarvestObject>, catalogAfter: seq<Package>,
                           actionsAfter: seq<Action>, errorsAfter: seq<ObjectError>)
    requires id in before && package.name.Some?
    requires previous.Some? ==> previous.value in before
  {
    var byName := PackageGet(catalogBefore, package.name.value);
    var claimed := before[id := Claimed(before[id], status, byName)];
    var found := Found(catalogBefore, byName, claimed[id].packageId);
    var resolved := ResolvedStatus(status, byName.Some?, found.Some?);
    if resolved == Some("new") then
      catalogAfter == catalogBefore
      && PackageCreated(claimed, actionsBefore, errorsBefore, id, package, newId, accepts, r, after, actionsAfter, errorsAfter)
    else if resolved == Some("change") then
      found.Some? && catalogAfter == Reactivated(catalogBefore, found.value)
      && PackageChanged(claimed, actionsBefore, errorsBefore, id, force, previous, package, accepts, r,
                 after, actionsAfter, errorsAfter)
    else
      r == Imported && after == claimed && catalogAfter == catalogBefore
      && actionsAfter == actionsBefore && errorsAfter == errorsBefore
  }

  /** The "new" branch: the object gets the fresh id, and the package is created if it validates. */
  ghost predicate PackageCreated(before: map<nat, HarvestObject>, actionsBefore: seq<Action>, errorsBefore: seq<ObjectError>,
                          id: nat, package: PackageDict, newId: string, accepts: PackageDict -> bool, r: ImportResult,
                          after: map<nat, HarvestObject>, actionsAfter: seq<Action>, errorsAfter: seq<ObjectError>)
    requires id in before
  {
    after == before[id := before[id].(packageId := Some(newId))]
    && Validated(actionsBefore, errorsBefore, id, PackageCreate(newId, package), accepts, r, actionsAfter, errorsAfter)
  }

  /** The action is taken if the package validates; otherwise a validation error is left. */
  ghost predicate Validated(actionsBefore: seq<Action>, errorsBefore: seq<ObjectError>, id: nat, action: Action,
                            accepts: PackageDict -> bool, r: ImportResult, actionsAfter: seq<Action>,
                            errorsAfter: seq<ObjectError>)
    requires !action.PackageDelete?
  {
    if accepts(action.package) then
      r == Imported && actionsAfter == actionsBefore + [action] && errorsAfter == errorsBefore
    else
      r == Failed && actionsAfter == actionsBefore && errorsAfter == errorsBefore + [ObjectError(id, ValidationFailed)]
  }

  /**
   * The "change" branch: unless forced, a previous object without a date
   * (or an object without one) raises `TypeError` on the comparison, and a
   * record not newer than the previous one replaces the previous object;
   * otherwise the package is updated if it validates.
   */
  ghost predicate PackageChanged(before: map<nat, HarvestObject>, actionsBefore: seq<Action>, errorsBefore: seq<ObjectError>,
                          id: nat, force: bool, previous: Option<nat>, package: PackageDict,
                          accepts: PackageDict -> bool, r: ImportResult, after: map<nat, HarvestObject>,
                          actionsAfter: seq<Action>, errorsAfter: seq<ObjectError>)
    requires id in before
    requires previous.Some? ==> previous.value in before
  {
    var update := PackageUpdate(before[id].packageId, package);
    if !force && previous.Some? then
      var p := previous.value;
      if before[id].metadataModified.None? || before[p].metadataModified.None? then
        r == Threw(TypeError) && after == before && actionsAfter == actionsBefore && errorsAfter == errorsBefore
      else if NotNewer(before[id].metadataModified, before[p].metadataModified) then
        r == Imported && after == before[id := before[id].(jobId := before[p].jobId)] - {p}
        && actionsAfter == actionsBefore && errorsAfter == errorsBefore
      else
        after == before && Validated(actionsBefore, errorsBefore, id, update, accepts, r, actionsAfter, errorsAfter)
    else
      after == before && Validated(actionsBefore, errorsBefore, id, update, accepts, r, actionsAfter, errorsAfter)
  }

  /**
   * The status state machine as seen from the catalogue: a saved record
   * creates a package only when none has its name (and, for a changed
   * record, none has the object's package id either), and updates one only
   * when one was found for a changed record or by name for a new one.
   */
  lemma ActionFollowsStatus(before: map<nat, HarvestObject>, catalogBefore: seq<Package>, actionsBefore: seq<Action>,
                            errorsBefore: seq<ObjectError>, id: nat, status: Option<string>, force: bool,
                            previous: Option<nat>, package: PackageDict, newId: string, accepts: PackageDict -> bool,
                            r: ImportResult, after: map<nat, HarvestObject>, catalogAfter: seq<Package>,
                            actionsAfter: seq<Action>, errorsAfter: seq<ObjectError>)
    requires id in before && package.name.Some?
    requires previous.Some? ==> previous.value in before
    requires Finished(before, catalogBefore, actionsBefore, errorsBefore, id, status, force, previous, package,
                      newId, accepts, r, after, catalogAfter, actionsAfter, errorsAfter)
    requires |actionsAfter| > |actionsBefore|
    ensures status == Some("new") || status == Some("change")
    ensures var byName := PackageGet(catalogBefore, package.name.value);
      var found := Found(catalogBefore, byName, before[id].packageId);
      var last := actionsAfter[|actionsAfter| - 1];
      r == Imported && !last.PackageDelete? && last.package == package
      && (last.PackageCreate? ==> byName.None? && (status == Some("change") ==> found.None?))
      && (last.PackageUpdate? ==> found.Some? && (status == Some("change") || byName.Some?))
  {
  }

  /**
   * An import that is not forced flags the previous current object with
   * the guid as not current; a forced one leaves it current, so two
   * current objects then share the guid.
   */
  lemma PreviousObjectRetired(before: map<nat, HarvestObject>, id: nat, iso: IsoValues, digest: string, force: bool,
                              previous: Option<nat>, parseDate: string -> Option<int>, begun: Begun,
                              after: map<nat, HarvestObject>, errorsBefore: seq<ObjectError>,
                              errorsAfter: seq<ObjectError>)
    requires id in before
    requires Settled(before, id, iso, digest, force, previous, parseDate, begun, after, errorsBefore, errorsAfter)
    requires previous.Some? && previous.value != id && PreviousObject(before, before[id].guid, previous)
    ensures previous.value in after && after[previous.value].guid == before[id].guid
    ensures after[previous.value].current <==> force
  {
  }
}
