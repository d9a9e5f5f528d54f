/** The `reset` command's gate: whether local kubefirst content may be removed. */
module Reset {
  import opened Wrappers
  import opened GoStrings

  /**
   * What viper holds under "kubefirst-checks": nothing, a string, a map whose
   * values are given by their `%v` text (None is a nil map), or a value of
   * another Go type, named by its `%T` text.
   */
  datatype ChecksEntry = NilEntry | StringEntry(s: string) | MapEntry(m: Option<map<string, string>>) | OtherEntry(typeName: string)

  /** A check is on when its `%v` text parses as true; anything unparseable is off. */
  function CheckOn(text: string): bool {
    ParseBool(text) == Ok(true)
  }

  /**
   * parseConfigEntryKubefirstChecks: each key maps to whether its text parses
   * as true. Keys are taken in an order the model leaves open, as Go's map
   * iteration does; the result does not depend on it.
   */
  method ParseConfigEntryKubefirstChecks(checks: Option<map<string, string>>) returns (checksMap: map<string, bool>, err: Option<string>)
    ensures checks.None? ==> checksMap == map[] && err == Some("checks configuration is nil")
    ensures checks.Some? ==> err == None && checksMap.Keys == checks.value.Keys
    ensures checks.Some? ==> forall k :: k in checksMap ==> checksMap[k] == CheckOn(checks.value[k])
  {
    if checks.None? {
      return map[], Some("checks configuration is nil");
    }
    var m := checks.value;
    checksMap := map[];
    var todo := m.Keys;
    while todo != {}
      invariant todo <= m.Keys
      invariant checksMap.Keys == m.Keys - todo
      invariant forall k :: k in checksMap ==> checksMap[k] == CheckOn(m[k])
      decreases todo
    {
      var key :| key in todo;
      var boolValueP := ParseBool(m[key]);
      checksMap := checksMap[key := boolValueP == Ok(true)];
      todo := todo - {key};
    }
    return checksMap, None;
  }

  /** The parsed map's lookup: a missing key reads as false. */
  function Lookup(checks: map<string, bool>, key: string): bool {
    key in checks && checks[key]
  }

  datatype ResetError =
    | ActiveGitDeployment(gitProvider: string, cloudProvider: string)
    | ActiveCloudInstallation(cloudProvider: string)
    | UnknownContents
    | UnexpectedType(typeName: string)

  function Message(e: ResetError): string {
    match e
    case ActiveGitDeployment(git, cloud) =>
      "it looks like there's an active " + git + " resource deployment - please run " + cloud + " destroy before continuing"
    case ActiveCloudInstallation(cloud) =>
      "it looks like there's an active " + cloud + " installation - please run `" + cloud + " destroy` before continuing"
    case UnknownContents => "unable to determine contents of kubefirst-checks"
    case UnexpectedType(t) => "unable to determine contents of kubefirst-checks: unexpected type " + t
  }

  /** What the command does: report success without resetting, carry out runReset, or fail. */
  datatype Decision = AlreadyReset | RunReset | Refused(err: ResetError)

  /** The key of a provider's terraform-apply check. */
  function TerraformApplyKey(provider: string): (key: string)
    ensures HasPrefix(key, "terraform-apply-") && key[16..] == provider
  {
    "terraform-apply-" + provider
  }

  /**
   * resetCmd.RunE up to runReset. A map whose parse fails is treated as
   * having no checks on, as the error is only logged.
   */
  method ResetGate(gitProvider: string, cloudProvider: string, entry: ChecksEntry) returns (d: Decision)
    ensures d == Gate(gitProvider, cloudProvider, entry)
  {
    match entry {
      case NilEntry =>
        return AlreadyReset;
      case StringEntry(v) =>
        if v != "" {
          return Refused(UnknownContents);
        }
      case MapEntry(v) =>
        var checks, err := ParseConfigEntryKubefirstChecks(v);
        if Lookup(checks, TerraformApplyKey(gitProvider)) {
          return Refused(ActiveGitDeployment(gitProvider, cloudProvider));
        } else if Lookup(checks, TerraformApplyKey(cloudProvider)) {
          return Refused(ActiveCloudInstallation(cloudProvider));
        }
      case OtherEntry(t) =>
        return Refused(UnexpectedType(t));
    }
    return RunReset;
  }

  /** Whether a provider's terraform-apply check is on in the raw entry map. */
  predicate Active(m: Option<map<string, string>>, provider: string) {
    m.Some? && TerraformApplyKey(provider) in m.value && CheckOn(m.value[TerraformApplyKey(provider)])
  }

  /** The decision stated over the raw configuration entry. */
  function Gate(gitProvider: string, cloudProvider: string, entry: ChecksEntry): Decision {
    match entry
    case NilEntry => AlreadyReset
    case StringEntry(v) => if v == "" then RunReset else Refused(UnknownContents)
    case MapEntry(m) =>
      if Active(m, gitProvider) then Refused(ActiveGitDeployment(gitProvider, cloudProvider))
      else if Active(m, cloudProvider) then Refused(ActiveCloudInstallation(cloudProvider))
      else RunReset
    case OtherEntry(t) => Refused(UnexpectedType(t))
  }

  /**
   * Reset goes ahead exactly for an empty string or a map with neither
   * provider's terraform-apply check on; the git provider's check is
   * reported first when both are on.
   */
  lemma GateRunsReset(gitProvider: string, cloudProvider: string, entry: ChecksEntry)
    ensures Gate(gitProvider, cloudProvider, entry) == RunReset <==>
      entry == StringEntry("") ||
      (entry.MapEntry? && !Active(entry.m, gitProvider) && !Active(entry.m, cloudProvider))
    ensures entry.MapEntry? && Active(entry.m, gitProvider) ==>
      Gate(gitProvider, cloudProvider, entry) == Refused(ActiveGitDeployment(gitProvider, cloudProvider))
    ensures entry == NilEntry <==> Gate(gitProvider, cloudProvider, entry) == AlreadyReset
    ensures entry.MapEntry? && entry.m.None? ==> Gate(gitProvider, cloudProvider, entry) == RunReset
  {
  }

  /** A check value spelled "true" or "1" blocks; "false", "yes" or "" do not. */
  lemma CheckSpellings()
    ensures CheckOn("true") && CheckOn("1") && CheckOn("True")
    ensures !CheckOn("false") && !CheckOn("yes") && !CheckOn("")
  {
  }
}
