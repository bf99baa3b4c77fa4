/**
 * The harvest source configuration of `FisbrokerHarvester` (and of the
 * legacy `FisbrokerPlugin`): validating it, reading the timeout and the
 * time zone difference, finding the last error-free job and turning the
 * `import_since` setting into the date constraint of the CSW query.
 */
module Config {
  import opened Wrappers

  /**
   * A value of the JSON configuration object. `JNumber` stands for every
   * value `int()` accepts as it is (JSON numbers and booleans), holding what
   * `int()` makes of it; `JNull` is `null`; `JOther` is an array or object,
   * with its truthiness.
   */
  datatype ConfigValue = JString(text: string) | JNumber(number: int) | JNull | JOther(truthy: bool)

  /** The parsed `source_config`. */
  type SourceConfig = map<string, ConfigValue>

  /** Python truthiness of a configuration value, `None` standing for Python's `None`. */
  predicate ValueTruthy(v: Option<ConfigValue>) {
    match v
    case None => false
    case Some(JString(s)) => s != ""
    case Some(JNumber(n)) => n != 0
    case Some(JNull) => false
    case Some(JOther(t)) => t
  }

  const TIMEOUT_DEFAULT := 20
  const TIMEDELTA_DEFAULT := 0
  const IMPORT_SINCE_KEYWORDS: seq<string> := ["last_error_free", "big_bang"]

  /**
   * `int(value)`: a number as it is, a string as `parseInt` reads it (the
   * decimal literal syntax of Python's `int`), `ValueError` for a string it
   * rejects and `TypeError` for `null`, arrays and objects.
   */
  function IntOf(v: ConfigValue, parseInt: string -> Option<int>): (r: Result<int>)
    ensures v.JNumber? ==> r == Ok(v.number)
    ensures v.JString? ==> (r.Ok? <==> parseInt(v.text).Some?)
    ensures v.JString? && r.Ok? ==> r.value == parseInt(v.text).value
    ensures v.JString? && r.Err? ==> r.error.ValueError?
    ensures v.JNull? || v.JOther? ==> r == Err(TypeError)
  {
    match v
    case JNumber(n) => Ok(n)
    case JString(s) =>
      if parseInt(s).Some? then Ok(parseInt(s).value)
      else Err(ValueError("invalid literal for int() with base 10: '" + s + "'"))
    case _ => Err(TypeError)
  }

  /** `get_timeout`: the `timeout` setting as an integer, 20 seconds when there is none. */
  function GetTimeout(config: SourceConfig, parseInt: string -> Option<int>): (r: Result<int>)
    ensures "timeout" !in config ==> r == Ok(TIMEOUT_DEFAULT)
    ensures "timeout" in config ==> r == IntOf(config["timeout"], parseInt)
  {
    if "timeout" in config then IntOf(config["timeout"], parseInt) else Ok(TIMEOUT_DEFAULT)
  }

  /** `get_timedelta`: the `timedelta` setting in hours as an integer, 0 when there is none. */
  function GetTimedelta(config: SourceConfig, parseInt: string -> Option<int>): (r: Result<int>)
    ensures "timedelta" !in config ==> r == Ok(TIMEDELTA_DEFAULT)
    ensures "timedelta" in config ==> r == IntOf(config["timedelta"], parseInt)
  {
    if "timedelta" in config then IntOf(config["timedelta"], parseInt) else Ok(TIMEDELTA_DEFAULT)
  }

  // ---------------------------------------------------------- validate_config

  /** Which class's `validate_config`: the two differ only in their messages. */
  datatype Validator = HarvesterValidator | LegacyValidator

  /** The message for an `import_since` that is neither a keyword nor a date. */
  function ImportSinceMessage(validator: Validator, importSince: string): string {
    match validator
    case HarvesterValidator =>
      "'import_since' is not a valid date: '" + importSince
      + "'. Use ISO8601: YYYY-MM-DD or one of last_error_free, big_bang."
    case LegacyValidator =>
      "'import_since' is not a valid date: '" + importSince
      + "'. Use ISO8601: YYYY-MM-DD or one of ['last_error_free', 'big_bang']."
  }

  /** The message for a `timeout` that is not a whole number. */
  function TimeoutMessage(timeout: string): string {
    "'timeout' is not valid: '" + timeout + "'. Please use whole numbers to indicate seconds until timeout."
  }

  /** The message for a `timedelta` that is not a whole number; the harvester's starts with one quote too many. */
  function TimedeltaMessage(validator: Validator, timedelta: string): string {
    (if validator.HarvesterValidator? then "''" else "'")
    + "timedelta' is not valid: '" + timedelta
    + "'. Please use whole numbers to indicate timedelta between UTC and harvest source timezone."
  }

  /** What `json.loads` makes of the configuration text: an error message or an object. */
  datatype ParsedConfig = NotJson(message: string) | JsonObject(fields: SourceConfig)

  /**
   * A configuration passed through `validate_config`: an empty one as it is,
   * or the object with integer settings together with the text the base
   * class's check returned for it.
   */
  datatype Validated = EmptyConfig | Checked(settings: SourceConfig, text: string)

  /** `import_since` is a keyword, or a string `isDate` (`strptime` with `%Y-%m-%d`) accepts. */
  predicate ImportSinceValid(v: ConfigValue, isDate: string -> bool) {
    v.JString? && (v.text in IMPORT_SINCE_KEYWORDS || isDate(v.text))
  }

  /**
   * Replaces the setting `key` by its integer, with `ValueError(message)`
   * for a string `int()` rejects and `TypeError` for `null`, arrays and
   * objects.
   */
  function CoerceSetting(fields: SourceConfig, key: string, parseInt: string -> Option<int>, message: string -> string)
    : (r: Result<SourceConfig>)
    ensures key !in fields ==> r == Ok(fields)
    ensures key in fields ==> (r.Ok? <==> IntOf(fields[key], parseInt).Ok?)
    ensures r.Ok? && key in fields ==> r.value == fields[key := JNumber(IntOf(fields[key], parseInt).value)]
    ensures r.Err? && fields[key].JString? ==> r.error == ValueError(message(fields[key].text))
    ensures r.Err? && !fields[key].JString? ==> r.error == TypeError
  {
    if key !in fields then Ok(fields)
    else
      match IntOf(fields[key], parseInt)
      case Ok(n) => Ok(fields[key := JNumber(n)])
      case Err(e) => if fields[key].JString? then Err(ValueError(message(fields[key].text))) else Err(TypeError)
  }

  /**
   * The checks of `validate_config` on the parsed object: `import_since`
   * must be a keyword or a `YYYY-MM-DD` date, `timeout` and `timedelta`
   * whole numbers, which the result then holds as integers.
   */
  function ValidateFields(validator: Validator, fields: SourceConfig, isDate: string -> bool,
                          parseInt: string -> Option<int>): (r: Result<SourceConfig>)
    ensures r.Ok? <==>
      ("import_since" in fields ==> ImportSinceValid(fields["import_since"], isDate))
      && ("timeout" in fields ==> IntOf(fields["timeout"], parseInt).Ok?)
      && ("timedelta" in fields ==> IntOf(fields["timedelta"], parseInt).Ok?)
    ensures r.Ok? ==>
      r.value.Keys == fields.Keys
      && (forall k :: k in fields && k != "timeout" && k != "timedelta" ==> r.value[k] == fields[k])
      && GetTimeout(r.value, parseInt) == GetTimeout(fields, parseInt)
      && GetTimedelta(r.value, parseInt) == GetTimedelta(fields, parseInt)
      && ("timeout" in r.value ==> r.value["timeout"].JNumber?)
      && ("timedelta" in r.value ==> r.value["timedelta"].JNumber?)
  {
    if "import_since" in fields && !ImportSinceValid(fields["import_since"], isDate) then
      if fields["import_since"].JString? then Err(ValueError(ImportSinceMessage(validator, fields["import_since"].text)))
      else Err(TypeError)
    else
      match CoerceSetting(fields, "timeout", parseInt, TimeoutMessage)
      case Err(e) => Err(e)
      case Ok(withTimeout) =>
        CoerceSetting(withTimeout, "timedelta", parseInt, t => TimedeltaMessage(validator, t))
  }

  /**
   * `validate_config`: an empty configuration passes as it is; otherwise it
   * must be a JSON object that passes the checks of `ValidateFields`. The
   * checked object is then written back as JSON text (`dump`, `json.dumps`
   * with an indent of 2) and handed to the check of the spatial harvester's
   * base class (`baseCheck`, `CSWHarvester.validate_config`), whose answer
   * or exception is the result.
   */
  function ValidateConfig(validator: Validator, config: string, parse: string -> ParsedConfig,
                          isDate: string -> bool, parseInt: string -> Option<int>,
                          dump: SourceConfig -> string, baseCheck: string -> Result<string>): (r: Result<Validated>)
    ensures config == "" ==> r == Ok(EmptyConfig)
    ensures r.Ok? <==>
      config == ""
      || (parse(config).JsonObject?
          && ValidateFields(validator, parse(config).fields, isDate, parseInt).Ok?
          && baseCheck(dump(ValidateFields(validator, parse(config).fields, isDate, parseInt).value)).Ok?)
    ensures r.Ok? && r.value.Checked? ==>
      config != "" && parse(config).JsonObject?
      && r.value.settings == ValidateFields(validator, parse(config).fields, isDate, parseInt).value
      && baseCheck(dump(r.value.settings)) == Ok(r.value.text)
    ensures config != "" && parse(config).NotJson? ==> r == Err(ValueError(parse(config).message))
    ensures config != "" && parse(config).JsonObject? ==>
      match ValidateFields(validator, parse(config).fields, isDate, parseInt)
      case Err(e) => r == Err(e)
      case Ok(settings) => baseCheck(dump(settings)).Err? ==> r == Err(baseCheck(dump(settings)).error)
  {
    if config == "" then Ok(EmptyConfig)
    else
      match parse(config)
      case NotJson(message) => Err(ValueError(message))
      case JsonObject(fields) =>
        match ValidateFields(validator, fields, isDate, parseInt)
        case Err(e) => Err(e)
        case Ok(settings) =>
          match baseCheck(dump(settings))
          case Err(e) => Err(e)
          case Ok(text) => Ok(Checked(settings, text))
  }

  /** A validated configuration gives its timeout and time zone difference without an error. */
  lemma ValidatedSettingsRead(validator: Validator, config: string, parse: string -> ParsedConfig,
                              isDate: string -> bool, parseInt: string -> Option<int>,
                              dump: SourceConfig -> string, baseCheck: string -> Result<string>)
    requires ValidateConfig(validator, config, parse, isDate, parseInt, dump, baseCheck).Ok?
    requires ValidateConfig(validator, config, parse, isDate, parseInt, dump, baseCheck).value.Checked?
    ensures GetTimeout(ValidateConfig(validator, config, parse, isDate, parseInt, dump, baseCheck).value.settings, parseInt).Ok?
    ensures GetTimedelta(ValidateConfig(validator, config, parse, isDate, parseInt, dump, baseCheck).value.settings, parseInt).Ok?
  {
    var settings := ValidateConfig(validator, config, parse, isDate, parseInt, dump, baseCheck).value.settings;
    if "timeout" in settings {
      assert settings["timeout"].JNumber?;
    }
    if "timedelta" in settings {
      assert settings["timedelta"].JNumber?;
    }
  }

  // ---------------------------------------------------- last_error_free_job

  /** A harvest object as `last_error_free_job` looks at it. */
  datatype ObjectReport = ObjectReport(current: bool, reportStatus: string)

  /**
   * A harvest job as `last_error_free_job` looks at it. `gatherStarted` is
   * the start of its gather stage in seconds; `reimport` is what
   * `helpers.is_reimport_job` says of it, a function that is not part of
   * this model.
   */
  datatype Job = Job(
    id: string,
    sourceId: string,
    gatherStarted: Option<int>,
    status: string,
    hasGatherErrors: bool,
    reimport: bool,
    objects: seq<ObjectReport>)

  /** The query's filter: same source, gathered, finished, not the current job, without gather errors. */
  predicate Eligible(job: Job, current: Job) {
    job.sourceId == current.sourceId && job.gatherStarted.Some? && job.status == "Finished"
    && job.id != current.id && !job.hasGatherErrors
  }

  /** An object that is not current and was not reported unmodified marks its job as unsuccessful. */
  predicate Unsuccessful(o: ObjectReport) {
    !o.current && o.reportStatus != "not modified"
  }

  /**
   * A job `last_error_free_job` may return. The harvester's override skips
   * the reimport jobs (`skipReimports`); the search plugin.py inherits from
   * ckanext-harvest's `HarvesterBase` is the same search without that skip.
   */
  predicate ErrorFree(job: Job, current: Job, skipReimports: bool) {
    Eligible(job, current) && !(skipReimports && job.reimport)
    && forall k :: 0 <= k < |job.objects| ==> !Unsuccessful(job.objects[k])
  }

  /** The first error-free job in the query's order. */
  function FirstErrorFree(jobs: seq<Job>, current: Job, skipReimports: bool): (r: Option<Job>)
    ensures r.None? <==> forall i :: 0 <= i < |jobs| ==> !ErrorFree(jobs[i], current, skipReimports)
    ensures r.Some? ==> r.value in jobs && ErrorFree(r.value, current, skipReimports)
  {
    if jobs == [] then None
    else if ErrorFree(jobs[0], current, skipReimports) then Some(jobs[0])
    else FirstErrorFree(jobs[1..], current, skipReimports)
  }

  /** The job found is the first error-free one: every job before it is skipped. */
  lemma {:induction false} FirstErrorFreeAt(jobs: seq<Job>, current: Job, skipReimports: bool, i: int)
    requires 0 <= i < |jobs| && ErrorFree(jobs[i], current, skipReimports)
    requires forall j :: 0 <= j < i ==> !ErrorFree(jobs[j], current, skipReimports)
    ensures FirstErrorFree(jobs, current, skipReimports) == Some(jobs[i])
  {
    if i > 0 {
      assert forall j :: 0 <= j < i - 1 ==> jobs[1..][j] == jobs[j + 1];
      FirstErrorFreeAt(jobs[1..], current, skipReimports, i - 1);
    }
  }

  /** Jobs newest first, as the query orders them by gather start. */
  predicate NewestFirst(jobs: seq<Job>) {
    forall i, j :: 0 <= i < j < |jobs| ==> jobs[j].gatherStarted.GetOr(0) <= jobs[i].gatherStarted.GetOr(0)
  }

  /** In the query's order, the job found is the most recently gathered of the error-free jobs. */
  lemma {:induction false} LastErrorFreeIsNewest(jobs: seq<Job>, current: Job, skipReimports: bool, i: int)
    requires NewestFirst(jobs)
    requires 0 <= i < |jobs| && ErrorFree(jobs[i], current, skipReimports)
    ensures FirstErrorFree(jobs, current, skipReimports).Some?
    ensures jobs[i].gatherStarted.value <= FirstErrorFree(jobs, current, skipReimports).value.gatherStarted.value
  {
    if !ErrorFree(jobs[0], current, skipReimports) {
      assert forall a, b :: 0 <= a < b < |jobs| - 1 ==> jobs[1..][a] == jobs[a + 1] && jobs[1..][b] == jobs[b + 1];
      assert jobs[1..][i - 1] == jobs[i];
      LastErrorFreeIsNewest(jobs[1..], current, skipReimports, i - 1);
    } else if i > 0 {
      assert jobs[i].gatherStarted.GetOr(0) <= jobs[0].gatherStarted.GetOr(0);
    }
  }

  /**
   * `last_error_free_job`: over the jobs as the query returns them (newest
   * gather first), skip the reimport jobs (in the harvester's override
   * only) and the jobs with an unsuccessful object, and return the first
   * one left.
   */
  method LastErrorFreeJob(jobs: seq<Job>, current: Job, skipReimports: bool) returns (found: Option<Job>)
    ensures found == FirstErrorFree(jobs, current, skipReimports)
  {
    for i := 0 to |jobs|
      invariant FirstErrorFree(jobs, current, skipReimports) == FirstErrorFree(jobs[i..], current, skipReimports)
    {
      var job := jobs[i];
      assert jobs[i..][1..] == jobs[i + 1..];
      if !Eligible(job, current) || (skipReimports && job.reimport) {
        continue;
      }
      var k := 0;
      while k < |job.objects| && !Unsuccessful(job.objects[k])
        invariant 0 <= k <= |job.objects|
        invariant forall m :: 0 <= m < k ==> !Unsuccessful(job.objects[m])
      {
        k := k + 1;
      }
      if k == |job.objects| {
        return Some(job);
      }
    }
    assert jobs[|jobs|..] == [];
    return None;
  }

  /**
   * The two searches differ exactly on reimport jobs: when the newest
   * eligible job is a successful reimport, plugin.py's inherited search
   * returns it while the harvester's skips it; without reimport jobs they
   * agree.
   */
  lemma {:induction false} ReimportJobsOnlyDifference(jobs: seq<Job>, current: Job)
    ensures |jobs| > 0 && ErrorFree(jobs[0], current, false) && jobs[0].reimport ==>
      FirstErrorFree(jobs, current, false) == Some(jobs[0]) && FirstErrorFree(jobs, current, true) != Some(jobs[0])
    ensures (forall i :: 0 <= i < |jobs| ==> !jobs[i].reimport) ==>
      FirstErrorFree(jobs, current, false) == FirstErrorFree(jobs, current, true)
  {
    if |jobs| > 0 && ErrorFree(jobs[0], current, false) && jobs[0].reimport {
      var r := FirstErrorFree(jobs, current, true);
      assert r.Some? ==> !r.value.reimport;
    }
    if jobs != [] && forall i :: 0 <= i < |jobs| ==> !jobs[i].reimport {
      assert forall i :: 0 <= i < |jobs| - 1 ==> jobs[1..][i] == jobs[i + 1];
      ReimportJobsOnlyDifference(jobs[1..], current);
    }
  }

  // ----------------------------------------------------------- import_since

  /**
   * `get_import_since_date` given the last error-free job: no setting and
   * `big_bang` mean no date, `last_error_free` the gather start of that job
   * shifted by `timedelta` hours (no date without such a job), any other
   * setting itself. `strftime` writes seconds as `%Y-%m-%dT%H:%M:%S%z`.
   */
  function ImportSinceDate(config: SourceConfig, lastErrorFree: Option<Job>, parseInt: string -> Option<int>,
                           strftime: int -> string): (r: Result<Option<ConfigValue>>)
    ensures "import_since" !in config || config["import_since"] == JString("big_bang") ==> r == Ok(None)
    ensures "import_since" in config && config["import_since"] == JString("last_error_free") ==>
      (lastErrorFree.None? ==> r == Ok(None))
      && (lastErrorFree.Some? && lastErrorFree.value.gatherStarted.Some? ==>
            (r.Ok? <==> GetTimedelta(config, parseInt).Ok?)
            && (r.Ok? ==> r.value == Some(JString(strftime(lastErrorFree.value.gatherStarted.value
                                                          + 3600 * GetTimedelta(config, parseInt).value)))))
    ensures "import_since" in config && config["import_since"] !in {JString("big_bang"), JString("last_error_free")} ==>
      r == Ok(Some(config["import_since"]))
    ensures r.Err? ==> "import_since" in config && config["import_since"] == JString("last_error_free")
  {
    if "import_since" !in config then Ok(None)
    else
      var importSince := config["import_since"];
      if importSince == JString("last_error_free") then
        match lastErrorFree
        case None => Ok(None)
        case Some(job) =>
          if job.gatherStarted.None? then Err(TypeError)
          else
            match GetTimedelta(config, parseInt)
            case Err(e) => Err(e)
            case Ok(hours) => Ok(Some(JString(strftime(job.gatherStarted.value + 3600 * hours))))
      else if importSince == JString("big_bang") then Ok(None)
      else Ok(Some(importSince))
  }

  /**
   * `get_import_since_date`, which looks for the last error-free job
   * itself: the harvester's (`skipReimports`, its own override of the
   * search) and plugin.py's (the inherited search, which keeps reimport
   * jobs) have the same body.
   */
  method GetImportSinceDate(config: SourceConfig, jobs: seq<Job>, current: Job, skipReimports: bool,
                            parseInt: string -> Option<int>, strftime: int -> string)
    returns (r: Result<Option<ConfigValue>>)
    ensures r == ImportSinceDate(config, FirstErrorFree(jobs, current, skipReimports), parseInt, strftime)
  {
    if "import_since" !in config {
      return Ok(None);
    }
    var importSince := config["import_since"];
    if importSince == JString("last_error_free") {
      var job := LastErrorFreeJob(jobs, current, skipReimports);
      if job.None? {
        return Ok(None);
      }
      var hours := GetTimedelta(config, parseInt);
      if hours.Err? {
        return Err(hours.error);
      }
      return Ok(Some(JString(strftime(job.value.gatherStarted.value + 3600 * hours.value))));
    } else if importSince == JString("big_bang") {
      return Ok(None);
    }
    return Ok(Some(importSince));
  }

  /** `PropertyIsGreaterThanOrEqualTo('modified', date)` */
  datatype Constraint = ModifiedSince(date: ConfigValue)

  /** `get_constraints`: one date constraint when the import-since date is truthy, none otherwise. */
  method GetConstraints(config: SourceConfig, jobs: seq<Job>, current: Job, skipReimports: bool,
                        parseInt: string -> Option<int>, strftime: int -> string) returns (r: Result<seq<Constraint>>)
    ensures var date := ImportSinceDate(config, FirstErrorFree(jobs, current, skipReimports), parseInt, strftime);
      (r.Err? <==> date.Err?)
      && (r.Ok? ==> (r.value == [] <==> !ValueTruthy(date.value)))
      && (r.Ok? && r.value != [] ==> r.value == [ModifiedSince(date.value.value)])
  {
    var date := GetImportSinceDate(config, jobs, current, skipReimports, parseInt, strftime);
    if date.Err? {
      return Err(date.error);
    }
    if ValueTruthy(date.value) {
      return Ok([ModifiedSince(date.value.value)]);
    }
    return Ok([]);
  }
}
