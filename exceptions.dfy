/**
 * `exceptions.py`: the numbered error table of the reimport action, its
 * message templates, and the exceptions raised while checking and running
 * a reimport.
 */
module Exceptions {
  import opened Wrappers
  import opened Text
  import opened Helper

  const ERROR_WRONG_HTTP := 1
  const ERROR_WRONG_CONTENT_TYPE := 2
  const ERROR_MISSING_ID := 3
  const ERROR_NOT_FOUND_IN_CKAN := 4
  const ERROR_NOT_HARVESTED := 5
  const ERROR_NOT_HARVESTED_BY_FISBROKER := 6
  const ERROR_NO_GUID := 7
  const ERROR_NO_CONNECTION := 8
  const ERROR_NO_CONNECTION_PACKAGE := 9
  const ERROR_NOT_FOUND_IN_FISBROKER := 10
  const ERROR_DURING_IMPORT := 11
  const ERROR_UNEXPECTED := 20

  /** The error codes, in the order the module declares them. */
  const ERROR_CODES: seq<int> := [
    ERROR_WRONG_HTTP, ERROR_WRONG_CONTENT_TYPE, ERROR_MISSING_ID, ERROR_NOT_FOUND_IN_CKAN,
    ERROR_NOT_HARVESTED, ERROR_NOT_HARVESTED_BY_FISBROKER, ERROR_NO_GUID, ERROR_NO_CONNECTION,
    ERROR_NO_CONNECTION_PACKAGE, ERROR_NOT_FOUND_IN_FISBROKER, ERROR_DURING_IMPORT, ERROR_UNEXPECTED]

  /**
   * A message template: the literal text around its `{}` fields, so a
   * template with n fields has n + 1 pieces.
   */
  datatype Template = Template(pieces: seq<string>)

  predicate WellFormed(t: Template) {
    |t.pieces| >= 1
  }

  function Fields(t: Template): nat
    requires WellFormed(t)
  {
    |t.pieces| - 1
  }

  /** The template as written: the pieces joined by `{}`. */
  function TemplateText(t: Template): string
    requires WellFormed(t)
    decreases |t.pieces|
  {
    if |t.pieces| == 1 then t.pieces[0]
    else t.pieces[0] + "{}" + TemplateText(Template(t.pieces[1..]))
  }

  /**
   * `template.format(*args)` for a template whose only fields are `{}`:
   * the fields take the arguments in order, surplus arguments are ignored
   * and a missing one raises `IndexError`.
   */
  function Fill(t: Template, args: seq<string>): (r: Result<string>)
    requires WellFormed(t)
    ensures r.Ok? <==> |args| >= Fields(t)
    ensures r.Err? ==> r.error == IndexError
    decreases |t.pieces|
  {
    if |t.pieces| == 1 then Ok(t.pieces[0])
    else if args == [] then Err(IndexError)
    else match Fill(Template(t.pieces[1..]), args[1..])
      case Ok(rest) => Ok(t.pieces[0] + args[0] + rest)
      case Err(e) => Err(e)
  }

  /** Filling every field with `{}` gives the template text back. */
  lemma {:induction false} FillWithFieldsIsText(t: Template, args: seq<string>)
    requires WellFormed(t) && |args| == Fields(t)
    requires forall i :: 0 <= i < |args| ==> args[i] == "{}"
    ensures Fill(t, args) == Ok(TemplateText(t))
    decreases |t.pieces|
  {
    if |t.pieces| > 1 {
      FillWithFieldsIsText(Template(t.pieces[1..]), args[1..]);
    }
  }

  /** Arguments beyond the template's fields change nothing. */
  lemma {:induction false} FillIgnoresSurplus(t: Template, args: seq<string>, more: seq<string>)
    requires WellFormed(t) && |args| >= Fields(t)
    ensures Fill(t, args + more) == Fill(t, args)
    decreases |t.pieces|
  {
    if |t.pieces| > 1 {
      assert (args + more)[1..] == args[1..] + more;
      FillIgnoresSurplus(Template(t.pieces[1..]), args[1..], more);
    }
  }

  /** The templates of `ERROR_MESSAGES`, one per code. */
  const MSG_WRONG_HTTP := Template(["Wrong HTTP method, only GET is allowed."])
  const MSG_WRONG_CONTENT_TYPE := Template(["Wrong content type, only application/json is allowed."])
  const MSG_MISSING_ID := Template(["Missing parameter 'id'."])
  const MSG_NOT_FOUND_IN_CKAN := Template(["Package id '", "' does not exist. Cannot reimport package."])
  const MSG_NOT_HARVESTED :=
    Template(["Package could not be re-imported because it was not created by a harvester."])
  // the harvester id is filled in when the table is built, so no field is left
  const MSG_NOT_HARVESTED_BY_FISBROKER :=
    Template(["Package could not be re-imported because it was not harvested by harvester '" + HARVESTER_ID + "'."])
  const MSG_NO_GUID :=
    Template(["Package could not be re-imported because FIS-Broker GUID could not be determined."])
  const MSG_NO_CONNECTION := Template(["Failed to establish connection to FIS-Broker service at ", " (", ")."])
  const MSG_NO_CONNECTION_PACKAGE :=
    Template(["Failed to establish connection to FIS-Broker service at ", " (", ") while reimporting package '", "'."])
  const MSG_NOT_FOUND_IN_FISBROKER :=
    Template(["Package could not be re-imported because GUID '", "' was not found on FIS-Broker."])
  const MSG_DURING_IMPORT :=
    Template(["Package could not be re-imported because the FIS-Broker data is no longer valid. Reason: ",
              ". Package will be deactivated."])
  const MSG_UNEXPECTED := Template(["Unexpected error"])

  /** `ERROR_MESSAGES.get(code)`: every declared code has a well-formed template, no other code has one. */
  function ErrorMessage(code: int): (t: Option<Template>)
    ensures t.Some? <==> code in ERROR_CODES
    ensures t.Some? ==> WellFormed(t.value)
  {
    if code == ERROR_WRONG_HTTP then Some(MSG_WRONG_HTTP)
    else if code == ERROR_WRONG_CONTENT_TYPE then Some(MSG_WRONG_CONTENT_TYPE)
    else if code == ERROR_MISSING_ID then Some(MSG_MISSING_ID)
    else if code == ERROR_NOT_FOUND_IN_CKAN then Some(MSG_NOT_FOUND_IN_CKAN)
    else if code == ERROR_NOT_HARVESTED then Some(MSG_NOT_HARVESTED)
    else if code == ERROR_NOT_HARVESTED_BY_FISBROKER then Some(MSG_NOT_HARVESTED_BY_FISBROKER)
    else if code == ERROR_NO_GUID then Some(MSG_NO_GUID)
    else if code == ERROR_NO_CONNECTION then Some(MSG_NO_CONNECTION)
    else if code == ERROR_NO_CONNECTION_PACKAGE then Some(MSG_NO_CONNECTION_PACKAGE)
    else if code == ERROR_NOT_FOUND_IN_FISBROKER then Some(MSG_NOT_FOUND_IN_FISBROKER)
    else if code == ERROR_DURING_IMPORT then Some(MSG_DURING_IMPORT)
    else if code == ERROR_UNEXPECTED then Some(MSG_UNEXPECTED)
    else None
  }

  /** The codes are pairwise distinct. */
  lemma ErrorCodesDistinct()
    ensures forall i, j :: 0 <= i < j < |ERROR_CODES| ==> ERROR_CODES[i] != ERROR_CODES[j]
  {
  }

  /** Python's `str()` of an id that may be `None`. */
  function IdText(id: Option<string>): string {
    match id
    case None => "None"
    case Some(s) => s
  }

  /** Which `ReimportError` subclass was raised, with the fields only that subclass has. */
  datatype ReimportKind =
    | Unexpected
    | PackageIdDoesNotExist
    | PackageNotHarvested
    | PackageNotHarvestedInFisbroker
    | NoFisbrokerId
    | NoConnection(serviceUrl: string)
    | NotFoundInFisbroker(fbGuid: string)
    | DuringImport(reason: string)

  /** A `ReimportError`: its subclass, the package it concerns, its code and its message. */
  datatype ReimportError = ReimportError(kind: ReimportKind, packageId: Option<string>, errorCode: int, message: string)

  /** `ReimportError(package_id, error_code=ERROR_UNEXPECTED, msg=None)` */
  function NewReimportError(packageId: Option<string>, errorCode: int, msg: Option<string>): (e: ReimportError)
    ensures e.packageId == packageId && e.errorCode == errorCode
    ensures msg.Some? ==> e.message == msg.value
    ensures msg.None? ==> e.message == "An error occured while trying to reimport package id " + IdText(packageId)
  {
    ReimportError(Unexpected, packageId, errorCode,
                  msg.GetOr("An error occured while trying to reimport package id " + IdText(packageId)))
  }

  /** The message of `code` with its fields filled from `args`, which hold enough arguments. */
  function Message(code: int, args: seq<string>): string
    requires code in ERROR_CODES && |args| >= Fields(ErrorMessage(code).value)
  {
    Fill(ErrorMessage(code).value, args).value
  }

  /** `PackageIdDoesNotExistError(package_id)` */
  function PackageIdDoesNotExistError(packageId: string): (e: ReimportError)
    ensures e.kind == PackageIdDoesNotExist && e.packageId == Some(packageId)
    ensures e.errorCode == ERROR_NOT_FOUND_IN_CKAN
    ensures e.message == "Package id '" + packageId + "' does not exist. Cannot reimport package."
  {
    var e := NewReimportError(Some(packageId), ERROR_NOT_FOUND_IN_CKAN,
                              Some(Fill(MSG_NOT_FOUND_IN_CKAN, [packageId]).value));
    e.(kind := PackageIdDoesNotExist)
  }

  /** `PackageNotHarvestedError(package_id)` */
  function PackageNotHarvestedError(packageId: string): (e: ReimportError)
    ensures e.kind == PackageNotHarvested && e.packageId == Some(packageId)
    ensures e.errorCode == ERROR_NOT_HARVESTED
    ensures Fill(MSG_NOT_HARVESTED, []) == Ok(e.message)
  {
    var e := NewReimportError(Some(packageId), ERROR_NOT_HARVESTED, Some(Fill(MSG_NOT_HARVESTED, []).value));
    e.(kind := PackageNotHarvested)
  }

  /** `PackageNotHarvestedInFisbrokerError(package_id)` */
  function PackageNotHarvestedInFisbrokerError(packageId: string): (e: ReimportError)
    ensures e.kind == PackageNotHarvestedInFisbroker && e.packageId == Some(packageId)
    ensures e.errorCode == ERROR_NOT_HARVESTED_BY_FISBROKER
    ensures e.message == "Package could not be re-imported because it was not harvested by harvester 'fisbroker'."
  {
    var e := NewReimportError(Some(packageId), ERROR_NOT_HARVESTED_BY_FISBROKER,
                              Some(Fill(MSG_NOT_HARVESTED_BY_FISBROKER, []).value));
    e.(kind := PackageNotHarvestedInFisbroker)
  }

  /** `NoFisbrokerIdError(package_id)` */
  function NoFisbrokerIdError(packageId: string): (e: ReimportError)
    ensures e.kind == NoFisbrokerId && e.packageId == Some(packageId)
    ensures e.errorCode == ERROR_NO_GUID
    ensures Fill(MSG_NO_GUID, []) == Ok(e.message)
  {
    var e := NewReimportError(Some(packageId), ERROR_NO_GUID, Some(Fill(MSG_NO_GUID, []).value));
    e.(kind := NoFisbrokerId)
  }

  /**
   * `NoConnectionError(package_id, service_url, error_message)`: always code
   * 8, but the message names the package, with code 9's template, exactly
   * when the package id is truthy.
   */
  function NoConnectionError(packageId: Option<string>, serviceUrl: string, errorMessage: string): (e: ReimportError)
    ensures e.kind == NoConnection(serviceUrl) && e.packageId == packageId && e.errorCode == ERROR_NO_CONNECTION
    ensures Truthy(packageId) ==>
      Fill(MSG_NO_CONNECTION_PACKAGE, [serviceUrl, errorMessage, packageId.value]) == Ok(e.message)
    ensures !Truthy(packageId) ==> Fill(MSG_NO_CONNECTION, [serviceUrl, errorMessage]) == Ok(e.message)
  {
    var message :=
      if Truthy(packageId) then Fill(MSG_NO_CONNECTION_PACKAGE, [serviceUrl, errorMessage, packageId.value]).value
      else Fill(MSG_NO_CONNECTION, [serviceUrl, errorMessage]).value;
    var e := NewReimportError(packageId, ERROR_NO_CONNECTION, Some(message));
    e.(kind := NoConnection(serviceUrl))
  }

  /** `NotFoundInFisbrokerError(package_id, fb_guid)`, which the extension uses but does not define here. */
  function NotFoundInFisbrokerError(packageId: Option<string>, fbGuid: string): (e: ReimportError)
    ensures e.kind == NotFoundInFisbroker(fbGuid) && e.packageId == packageId
    ensures e.errorCode == ERROR_NOT_FOUND_IN_FISBROKER
    ensures Fill(MSG_NOT_FOUND_IN_FISBROKER, [fbGuid]) == Ok(e.message)
  {
    var e := NewReimportError(packageId, ERROR_NOT_FOUND_IN_FISBROKER,
                              Some(Fill(MSG_NOT_FOUND_IN_FISBROKER, [fbGuid]).value));
    e.(kind := NotFoundInFisbroker(fbGuid))
  }

  /** `FBImportError(package_id, reason)`, which the extension uses but does not define here. */
  function FBImportError(packageId: Option<string>, reason: string): (e: ReimportError)
    ensures e.kind == DuringImport(reason) && e.packageId == packageId
    ensures e.errorCode == ERROR_DURING_IMPORT
    ensures Fill(MSG_DURING_IMPORT, [reason]) == Ok(e.message)
  {
    var e := NewReimportError(packageId, ERROR_DURING_IMPORT, Some(Fill(MSG_DURING_IMPORT, [reason]).value));
    e.(kind := DuringImport(reason))
  }

  /** `NoFBHarvesterDefined(msg)`, with its default message. */
  const NO_FB_HARVESTER_MESSAGE := "No FIS-Broker harvester found, cannot reimport."

  /** What escapes a reimport: one of the errors above, a missing harvester, or a plain Python error. */
  datatype Failure =
    | Reimport(error: ReimportError)
    | NoFBHarvesterDefined(message: string)
    | Python(cause: Error)

  /** The `{message, code}` body of an error response. */
  datatype ErrorDict = ErrorDict(template: Template, code: int)

  /**
   * `get_error_dict(error_code)`: the code's template and the code for a
   * code the table knows; any other code raises `ValueError`.
   */
  function GetErrorDict(code: int): (r: Result<ErrorDict>)
    ensures r.Ok? <==> code in ERROR_CODES
    ensures r.Ok? ==> r.value.code == code && Some(r.value.template) == ErrorMessage(code) && WellFormed(r.value.template)
    ensures r.Err? ==> r.error.ValueError?
  {
    if ErrorMessage(code).Some? then Ok(ErrorDict(ErrorMessage(code).value, code))
    else Err(ValueError("No error code " + DecimalText(code)
                        + " exists, must be one of dict_keys([1, 2, 3, 4, 5, 6, 7, 8, 9, 10, 11, 20])"))
  }
}
