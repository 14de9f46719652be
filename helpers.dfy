/** The renderer's input validators: project name, CMS type, install path,
    docroot, and the rule that decides whether an existing configuration
    is overwritten.

    The validators return promises in the source; here a validator is a
    function to `Result`, `Ok` for a resolved promise and `Err` for a
    rejected one. `canReadAndWrite` is an oracle `access` from a path to
    its outcome. */
module Helpers {
  import opened Common
  import opened Strings
  import opened HostnameGrammar

  /** A hostname validator: the pattern is tested on the lower-cased
      name; the empty name is rejected with `blank`, any other failing
      name with `invalid`. */
  function CheckHostname(hostname: string, blank: string, invalid: string): (r: Result<bool>)
    ensures r.Ok? <==> WellFormedHost(ToLower(hostname))
    ensures r.Ok? ==> r.value
    ensures r.Err? ==> r.error == Text(if hostname == "" then blank else invalid)
  {
    RegexTestIffWellFormed(ToLower(hostname));
    if RegexTest(ToLower(hostname)) then Ok(true)
    else Err(Text(if hostname != "" then invalid else blank))
  }

  /** `validateHostname`. */
  function ValidateHostname(hostname: string): Result<bool>
  {
    CheckHostname(hostname, "Project Name Cannot Be Blank.", "Project Name is Invalid.")
  }

  /** The empty name is reported as blank. */
  lemma BlankHostnameRejected()
    ensures ValidateHostname("") == Err(Text("Project Name Cannot Be Blank."))
  {
  }

  /** Lower-casing a name first changes nothing. */
  lemma HostnameCaseInsensitive(hostname: string)
    ensures ValidateHostname(ToLower(hostname)) == ValidateHostname(hostname)
  {
    ToLowerIdempotent(hostname);
  }

  /** A name holding a character outside the letters, digits, the two
      zero-width characters, `-` and `.` (an underscore, a slash, a space)
      is invalid. */
  lemma ForeignCharacterInvalid(before: string, c: char, after: string)
    requires !IsSegmentChar(c) && c != '-' && c != '.'
    ensures ValidateHostname(before + [c] + after) == Err(Text("Project Name is Invalid."))
  {
    var h := before + [c] + after;
    assert ToLower(h) == ToLower(before) + [c] + ToLower(after);
    ForeignCharRejected(ToLower(before), c, ToLower(after));
    RegexTestIffWellFormed(ToLower(h));
  }

  /** Doubled separators are invalid. */
  lemma DoubledSeparatorInvalid(before: string, c1: char, c2: char, after: string)
    requires c1 in "-." && c2 in "-."
    ensures ValidateHostname(before + [c1] + [c2] + after) == Err(Text("Project Name is Invalid."))
  {
    var h := before + [c1] + [c2] + after;
    assert ToLower(h) == ToLower(before) + [c1] + [c2] + ToLower(after);
    DoubledSeparatorRejected(ToLower(before), c1, c2, ToLower(after));
    RegexTestIffWellFormed(ToLower(h));
  }

  /** A name that starts or ends with a separator is invalid. */
  lemma EdgeSeparatorInvalid(c: char, rest: string)
    requires c in "-."
    ensures ValidateHostname([c] + rest) == Err(Text("Project Name is Invalid."))
    ensures ValidateHostname(rest + [c]) == Err(Text("Project Name is Invalid."))
  {
    assert ToLower([c] + rest) == [c] + ToLower(rest);
    assert ToLower(rest + [c]) == ToLower(rest) + [c];
    LeadingSeparatorRejected(c, ToLower(rest));
    TrailingSeparatorRejected(ToLower(rest), c);
    RegexTestIffWellFormed(ToLower([c] + rest));
    RegexTestIffWellFormed(ToLower(rest + [c]));
  }

  /** A CMS type validator: the lower-cased type must be one of `allowed`;
      the empty type is rejected with `blank`, any other with `invalid`. */
  function CheckCMSType(cmsType: string, allowed: seq<string>, blank: string, invalid: string): (r: Result<bool>)
    ensures r.Ok? <==> ToLower(cmsType) in allowed
    ensures r.Ok? ==> r.value
    ensures r.Err? ==> r.error == Text(if cmsType == "" then blank else invalid)
  {
    var cmsString := ToLower(cmsType);
    if cmsString in allowed then Ok(true)
    else Err(Text(if cmsType != "" then invalid else blank))
  }

  const RendererCMSTypes: seq<string> := ["wordpress", "drupal6", "drupal7", "drupal8", "php"]

  /** `validateCMSType`. */
  function ValidateCMSType(cmsType: string): Result<bool>
  {
    CheckCMSType(cmsType, RendererCMSTypes, "Please select a CMS type.", "CMS Type is Invalid.")
  }

  /** Case does not matter: a type is accepted exactly when its lower-cased
      form is, and the empty type is reported as unselected. */
  lemma CMSTypeCaseInsensitive(cmsType: string)
    ensures ValidateCMSType(ToLower(cmsType)) == ValidateCMSType(cmsType)
  {
    ToLowerIdempotent(cmsType);
  }

  /** What `canReadAndWrite` rejected with, as the validator passes it on:
      an error whose text mentions `ENOENT` becomes `message`. */
  function MapAccessError(err: JsError, message: string): (e: JsError)
    ensures Contains(err.ToString(), "ENOENT") ==> e == Text(message)
    ensures !Contains(err.ToString(), "ENOENT") ==> e == err
  {
    if IndexOf(err.ToString(), "ENOENT") != -1 then Text(message) else err
  }

  function CheckAccess(outcome: Result<string>, message: string): (r: Result<string>)
    ensures outcome.Ok? ==> r == outcome
    ensures outcome.Err? ==> r == Err(MapAccessError(outcome.error, message))
  {
    match outcome
    case Ok(out) => Ok(out)
    case Err(e) => Err(MapAccessError(e, message))
  }

  const InstallPathMessage: string := "Cannot find or write to the selected directory."
  const DocrootMessage: string := "Cannot find or write to specified docroot directory."

  /** `validateInstallPath`. */
  function ValidateInstallPath(path: string, access: string -> Result<string>): Result<string>
  {
    CheckAccess(access(path), InstallPathMessage)
  }

  /** An `Error` whose message starts with `ENOENT`, as Node's file-system
      errors do, is reported with the fixed message. */
  lemma InstallPathMissing(path: string, access: string -> Result<string>, detail: string)
    requires access(path) == Err(ErrorObject("ENOENT" + detail))
    ensures ValidateInstallPath(path, access) == Err(Text(InstallPathMessage))
  {
    IndexOfAtStart("ENOENT", detail);
    assert ErrorObject("ENOENT" + detail).ToString() == "Error: " + ("ENOENT" + detail);
    assert OccursAt("Error: " + ("ENOENT" + detail), "ENOENT", 7) by {
      assert ("Error: " + ("ENOENT" + detail))[7..13] == "ENOENT";
    }
  }

  /** The folder `validateDocroot` checks: the docroot is joined to the
      project path with exactly one `/` in between when it does not start
      with one, and appended as it is when it does. */
  function DocrootPath(path: string, docroot: string): (full: string)
    ensures full == path + "/" + (if docroot != [] && docroot[0] == '/' then docroot[1..] else docroot)
  {
    var root := if docroot != [] && docroot[0] == '/' then docroot else "/" + docroot;
    assert docroot != [] && docroot[0] == '/' ==> docroot == "/" + docroot[1..];
    path + root
  }

  /** A leading `/` on the docroot makes no difference. */
  lemma DocrootLeadingSlash(path: string, docroot: string)
    requires docroot == [] || docroot[0] != '/'
    ensures DocrootPath(path, "/" + docroot) == DocrootPath(path, docroot)
  {
    assert ("/" + docroot)[1..] == docroot;
  }

  /** `validateDocroot`. */
  function ValidateDocroot(path: string, docroot: string, access: string -> Result<string>): Result<string>
  {
    CheckAccess(access(DocrootPath(path, docroot)), DocrootMessage)
  }

  /** `checkIfExistingConfig`'s decision once `ddev config` has printed
      `messages`: the user is asked, and decides, only when an existing
      configuration was reported. */
  function CheckIfExistingConfig(messages: string, confirmed: bool): (proceed: bool)
    ensures proceed ==> confirmed
    ensures proceed <==> Contains(messages, "existing configuration") && confirmed
  {
    if IndexOf(messages, "existing configuration") != -1 then confirmed else false
  }
}
