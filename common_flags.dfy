/** The flags shared by the top-level commands: the GitHub add flags and the global ones. */
module CmdFlags {
  import opened Wrappers
  import FlagsetGithub

  datatype GithubAddCmdFlags = GithubAddCmdFlags(GithubOwner: string, GithubUser: string, GithubOrg: string, GithubHost: string)

  /**
   * processGithubAddCmdFlags, given the four cobra reads (user, org, owner,
   * host, in that order): the first failed read is returned, with a record
   * that is still empty because the fields are set only at the end.
   */
  function ProcessGithubAddCmdFlags(user: Result<string>, org: Result<string>, owner: Result<string>, host: Result<string>): (r: Result<GithubAddCmdFlags>)
    ensures user.Err? ==> r == Err(user.error)
    ensures user.Ok? && org.Err? ==> r == Err(org.error)
    ensures user.Ok? && org.Ok? && owner.Err? ==> r == Err(owner.error)
    ensures user.Ok? && org.Ok? && owner.Ok? && host.Err? ==> r == Err(host.error)
    ensures r.Ok? <==> user.Ok? && org.Ok? && owner.Ok? && host.Ok?
    ensures r.Ok? ==> (r.value.GithubOrg == org.value && r.value.GithubUser == user.value &&
      r.value.GithubHost == host.value &&
      (owner.value != "" ==> r.value.GithubOwner == owner.value) &&
      (owner.value == "" && org.value != "" ==> r.value.GithubOwner == org.value) &&
      (owner.value == "" && org.value == "" ==> r.value.GithubOwner == user.value))
  {
    if user.Err? then Err(user.error)
    else if org.Err? then Err(org.error)
    else if owner.Err? then Err(owner.error)
    else if host.Err? then Err(host.error)
    else Ok(GithubAddCmdFlags(FlagsetGithub.DeriveOwner(owner.value, org.value, user.value), user.value, org.value, host.value))
  }

  /** Both commands give the same owner for the same reads. */
  lemma OwnerAgreesWithFlagset(user: string, org: string, owner: string, host: string, token: string)
    requires !(user != "" && org != "" && token == "")
    ensures ProcessGithubAddCmdFlags(Ok(user), Ok(org), Ok(owner), Ok(host)).value.GithubOwner ==
      FlagsetGithub.ProcessGithubAddCmdFlags(Ok(user), Ok(org), Ok(owner), Ok(host), token).flags.GithubOwner
  {
  }

  datatype GlobalFlags = GlobalFlags(DryRun: bool, UseTelemetry: bool)

  /** processGlobalFlags: dry-run and use-telemetry copied unchanged, or the first failed read. */
  function ProcessGlobalFlags(dryRun: Result<bool>, useTelemetry: Result<bool>): (r: Result<GlobalFlags>)
    ensures dryRun.Err? ==> r == Err(dryRun.error)
    ensures dryRun.Ok? && useTelemetry.Err? ==> r == Err(useTelemetry.error)
    ensures dryRun.Ok? && useTelemetry.Ok? ==> r == Ok(GlobalFlags(dryRun.value, useTelemetry.value))
  {
    if dryRun.Err? then Err(dryRun.error)
    else if useTelemetry.Err? then Err(useTelemetry.error)
    else Ok(GlobalFlags(dryRun.value, useTelemetry.value))
  }
}
