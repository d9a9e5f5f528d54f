/** The GitHub settings of the add-GitHub command: owner, enablement and the addon list. */
module FlagsetGithub {
  import opened Wrappers

  datatype GithubAddCmdFlags = GithubAddCmdFlags(
    GithubOwner: string,
    GithubUser: string,
    GithubOrg: string,
    GithubHost: string,
    GithubEnable: bool)

  const EmptyGithubFlags := GithubAddCmdFlags("", "", "", "", false)

  const TokenRequired := "GITHUB_AUTH_TOKEN is required for GitHub installation"

  /** An explicit owner is kept; an empty one becomes the org, or the user when there is no org. */
  function DeriveOwner(owner: string, org: string, user: string): (o: string)
    ensures owner != "" ==> o == owner
    ensures owner == "" && org != "" ==> o == org
    ensures owner == "" && org == "" ==> o == user
    ensures o == "" <==> owner == "" && org == "" && user == ""
  {
    if owner == "" then (if org == "" then user else org) else owner
  }

  /** The addons written to viper: "github" when GitHub is enabled, "gitlab" otherwise. */
  function Addons(enabled: bool): (a: seq<string>)
    ensures |a| == 1 && (a[0] == "github" <==> enabled)
  {
    if enabled then ["github"] else ["gitlab"]
  }

  /** The viper keys set on success: "github.owner", "github.enabled" and "addons". */
  datatype GithubViper = GithubViper(owner: string, enabled: bool, addons: seq<string>)

  /** What the command returns: the record, the error, and the viper writes made on success. */
  datatype GithubOutcome = GithubOutcome(flags: GithubAddCmdFlags, err: Option<string>, writes: Option<GithubViper>)

  /**
   * ProcessGithubAddCmdFlags, given the four reads (in the order user, org,
   * owner, host) and the GitHub token from the configuration. The token check
   * sits between the org and owner reads. Every failure returns the empty record.
   */
  function ProcessGithubAddCmdFlags(user: Result<string>, org: Result<string>, owner: Result<string>,
                                    host: Result<string>, token: string): (r: GithubOutcome)
    ensures r.err.None? <==> (user.Ok? && org.Ok? && owner.Ok? && host.Ok? &&
      !(user.value != "" && org.value != "" && token == ""))
    ensures r.err.Some? ==> r.flags == EmptyGithubFlags && r.writes == None
    ensures user.Ok? && org.Ok? && user.value != "" && org.value != "" && token == "" ==>
      r.err == Some(TokenRequired)
    ensures r.err.None? ==>
      r.flags.GithubOwner == DeriveOwner(owner.value, org.value, user.value) &&
      r.flags.GithubOrg == org.value && r.flags.GithubUser == user.value && r.flags.GithubHost == host.value &&
      (r.flags.GithubEnable <==> r.flags.GithubOwner != "") &&
      r.writes == Some(GithubViper(r.flags.GithubOwner, r.flags.GithubEnable, Addons(r.flags.GithubEnable)))
  {
    if user.Err? then GithubOutcome(EmptyGithubFlags, Some(user.error), None)
    else if org.Err? then GithubOutcome(EmptyGithubFlags, Some(org.error), None)
    else if |user.value| > 0 && |org.value| > 0 && |token| == 0 then GithubOutcome(EmptyGithubFlags, Some(TokenRequired), None)
    else if owner.Err? then GithubOutcome(EmptyGithubFlags, Some(owner.error), None)
    else if host.Err? then GithubOutcome(EmptyGithubFlags, Some(host.error), None)
    else
      var o := DeriveOwner(owner.value, org.value, user.value);
      var enable := o != "";
      GithubOutcome(GithubAddCmdFlags(o, user.value, org.value, host.value, enable), None,
        Some(GithubViper(o, enable, Addons(enable))))
  }

  /** A user alone never needs the token, and enables GitHub with the user as owner. */
  lemma UserAloneEnablesGithub(user: string, host: string)
    requires user != ""
    ensures var r := ProcessGithubAddCmdFlags(Ok(user), Ok(""), Ok(""), Ok(host), "");
      r.err == None && r.flags.GithubOwner == user && r.flags.GithubEnable && r.writes.value.addons == ["github"]
  {
  }
}
