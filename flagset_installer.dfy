/** The generic installer settings: reading them, validating them, and the experimental-mode fallback. */
module FlagsetInstaller {
  import opened Wrappers
  import opened FlagsetCommon
  import opened GoStrings

  const CloudAws := "aws"
  const CloudK3d := "k3d"

  datatype InstallerGenericFlags = InstallerGenericFlags(
    ClusterName: string,
    AdminEmail: string,
    BotPassword: string,
    Cloud: string,
    GitProvider: string,
    OrgGitops: string,
    BranchGitops: string,
    BranchMetaphor: string,
    RepoGitops: string,
    TemplateTag: string,
    SkipMetaphor: bool,
    ExperimentalMode: bool)

  const EmptyFlags := InstallerGenericFlags("", "", "", "", "", "", "", "", "", "", false, false)

  /** The errors validateInstallationFlags can return. */
  datatype InstallError = MissingCloud | ShortBotPassword

  function Message(e: InstallError): string {
    match e
    case MissingCloud => "missing flag --cloud, supported values: " + CloudAws + ", " + CloudK3d
    case ShortBotPassword => "BotPassword (to GitLab flavor) is too short (minimum is 8 characters)"
  }

  /**
   * validateInstallationFlags over the viper keys "cloud", "botpassword" and
   * "git-provider". A missing cloud is reported first; a bot password is only
   * checked for gitlab, and an empty one is allowed. Go's len counts the
   * password's UTF-8 bytes, not its characters.
   */
  function ValidateInstallationFlags(cloud: string, botPassword: string, gitProvider: string): (err: Option<InstallError>)
    ensures err == Some(MissingCloud) <==> cloud == ""
    ensures err == Some(ShortBotPassword) <==>
      cloud != "" && botPassword != "" && Utf8Len(botPassword) < 8 && gitProvider == "gitlab"
    ensures |botPassword| >= 8 || botPassword == "" || gitProvider != "gitlab" ==> err != Some(ShortBotPassword)
  {
    if Utf8Len(cloud) < 1 then Some(MissingCloud)
    else if botPassword != "" && Utf8Len(botPassword) < 8 && gitProvider == "gitlab" then Some(ShortBotPassword)
    else None
  }

  /**
   * The length test counts bytes: five two-byte characters pass it, five
   * ASCII characters do not.
   */
  lemma BotPasswordBytes()
    ensures ValidateInstallationFlags(CloudK3d, "\U{E9}\U{E9}\U{E9}\U{E9}\U{E9}", "gitlab") == None
    ensures ValidateInstallationFlags(CloudK3d, "abcde", "gitlab") == Some(ShortBotPassword)
  {
    assert Utf8Len("\U{E9}\U{E9}\U{E9}\U{E9}\U{E9}") == 10;
    Utf8LenAscii("abcde");
  }

  /** The fallback condition: experimental mode, no release version, and no branch given. */
  predicate ForcesMain(experimental: bool, k1Version: string, branch: string) {
    experimental && k1Version == "" && branch == ""
  }

  /**
   * experimentalModeTweaks: each of the two branches becomes "main" exactly
   * when the fallback condition holds for it; nothing else changes.
   */
  function ExperimentalModeTweaks(flags: InstallerGenericFlags, k1Version: string): (r: InstallerGenericFlags)
    ensures r.BranchGitops == (if ForcesMain(flags.ExperimentalMode, k1Version, flags.BranchGitops) then "main" else flags.BranchGitops)
    ensures r.BranchMetaphor == (if ForcesMain(flags.ExperimentalMode, k1Version, flags.BranchMetaphor) then "main" else flags.BranchMetaphor)
    ensures r.(BranchGitops := flags.BranchGitops, BranchMetaphor := flags.BranchMetaphor) == flags
  {
    var f1 := if flags.ExperimentalMode && k1Version == "" && flags.BranchGitops == "" then flags.(BranchGitops := "main") else flags;
    if f1.ExperimentalMode && k1Version == "" && f1.BranchMetaphor == "" then f1.(BranchMetaphor := "main") else f1
  }

  /** Applying the tweaks twice gives what applying them once does. */
  lemma ExperimentalModeTweaksIdempotent(flags: InstallerGenericFlags, k1Version: string)
    ensures ExperimentalModeTweaks(ExperimentalModeTweaks(flags, k1Version), k1Version) == ExperimentalModeTweaks(flags, k1Version)
  {
  }

  /** After the tweaks neither branch is left empty in experimental development builds. */
  lemma ExperimentalModeTweaksFillBranches(flags: InstallerGenericFlags, k1Version: string)
    requires flags.ExperimentalMode && k1Version == ""
    ensures ExperimentalModeTweaks(flags, k1Version).BranchGitops != ""
    ensures ExperimentalModeTweaks(flags, k1Version).BranchMetaphor != ""
  {
  }

  /**
   * The addon loop and the mandatory addons: the requested addons in order,
   * then "cloud" for aws or "k3d" for k3d, each appended to the registry.
   */
  method SelectAddons(registry: seq<string>, addonsFlag: seq<string>, cloud: string) returns (addons: seq<string>)
    ensures addons == registry + addonsFlag + MandatoryAddons(cloud)
  {
    addons := registry;
    for i := 0 to |addonsFlag|
      invariant addons == registry + addonsFlag[..i]
    {
      addons := addons + [addonsFlag[i]];
    }
    assert addonsFlag[..|addonsFlag|] == addonsFlag;
    if cloud == CloudAws {
      addons := addons + ["cloud"];
    }
    if cloud == CloudK3d {
      addons := addons + ["k3d"];
    }
  }

  /** The addon a cloud requires: "cloud" for aws, "k3d" for k3d, none otherwise. */
  function MandatoryAddons(cloud: string): (m: seq<string>)
    ensures |m| <= 1
    ensures cloud == CloudAws <==> m == ["cloud"]
    ensures cloud == CloudK3d <==> m == ["k3d"]
  {
    if cloud == CloudAws then ["cloud"] else if cloud == CloudK3d then ["k3d"] else []
  }

  /** The string flags ProcessInstallerGenericFlags reads, in the order it reads them. */
  const StringFlagNames: seq<string> := [
    "git-provider", "admin-email", "cluster-name", "cloud", "gitops-branch",
    "bot-password", "metaphor-branch", "gitops-repo", "gitops-owner", "template-tag"]

  /** The read of names[i] fails with `e` and every read before it succeeds. */
  predicate FirstFailure(ctx: Context, names: seq<string>, i: int, e: string) {
    0 <= i < |names| && ReadConfigString(ctx, names[i]) == Err(e) &&
    forall j :: 0 <= j < i ==> ReadConfigString(ctx, names[j]).Ok?
  }

  /** A series of string reads that stops at the first error. */
  function ReadStrings(ctx: Context, names: seq<string>): (r: Result<seq<string>>)
    ensures r.Ok? ==> (|r.value| == |names| &&
      forall i :: 0 <= i < |names| ==> ReadConfigString(ctx, names[i]) == Ok(r.value[i]))
    ensures r.Err? ==> exists i :: FirstFailure(ctx, names, i, r.error)
    decreases |names|
  {
    if names == [] then Ok([])
    else match ReadConfigString(ctx, names[0])
      case Err(e) =>
        assert FirstFailure(ctx, names, 0, e);
        Err(e)
      case Ok(v) =>
        match ReadStrings(ctx, names[1..])
        case Err(e) =>
          ghost var i :| FirstFailure(ctx, names[1..], i, e);
          assert FirstFailure(ctx, names, i + 1, e);
          Err(e)
        case Ok(vs) => Ok([v] + vs)
  }

  /** The record as the code builds it: the owner read lands in RepoGitops and OrgGitops is never set. */
  function AssembleAsWritten(v: seq<string>, skipMetaphor: bool, experimental: bool): (f: InstallerGenericFlags)
    requires |v| == 10
    ensures f.GitProvider == v[0] && f.AdminEmail == v[1] && f.ClusterName == v[2] && f.Cloud == v[3]
    ensures f.BranchGitops == v[4] && f.BotPassword == v[5] && f.BranchMetaphor == v[6]
    ensures f.RepoGitops == v[8] && f.OrgGitops == "" && f.TemplateTag == v[9]
    ensures f.SkipMetaphor == skipMetaphor && f.ExperimentalMode == experimental
  {
    InstallerGenericFlags(
      ClusterName := v[2], AdminEmail := v[1], BotPassword := v[5], Cloud := v[3], GitProvider := v[0],
      OrgGitops := "", BranchGitops := v[4], BranchMetaphor := v[6], RepoGitops := v[8],
      TemplateTag := v[9], SkipMetaphor := skipMetaphor, ExperimentalMode := experimental)
  }

  /** The record as intended: "gitops-repo" is RepoGitops and "gitops-owner" is OrgGitops. */
  function Assemble(v: seq<string>, skipMetaphor: bool, experimental: bool): (f: InstallerGenericFlags)
    requires |v| == 10
    ensures f.GitProvider == v[0] && f.AdminEmail == v[1] && f.ClusterName == v[2] && f.Cloud == v[3]
    ensures f.BranchGitops == v[4] && f.BotPassword == v[5] && f.BranchMetaphor == v[6]
    ensures f.RepoGitops == v[7] && f.OrgGitops == v[8] && f.TemplateTag == v[9]
    ensures f.SkipMetaphor == skipMetaphor && f.ExperimentalMode == experimental
  {
    AssembleAsWritten(v, skipMetaphor, experimental).(RepoGitops := v[7], OrgGitops := v[8])
  }

  /** With the default flag values the repository name is lost and the owner is nowhere to be found. */
  lemma AssembleAsWrittenLosesRepo()
    ensures var v := ["github", "", "kubefirst", "k3d", "", "", "", "gitops", "kubefirst", ""];
      AssembleAsWritten(v, false, false).RepoGitops == "kubefirst" &&
      AssembleAsWritten(v, false, false).OrgGitops == "" &&
      Assemble(v, false, false).RepoGitops == "gitops" &&
      Assemble(v, false, false).OrgGitops == "kubefirst"
  {
  }

  /** The string reads, the skip-metaphor read and the addons read all succeed. */
  predicate ReadsSucceed(ctx: Context) {
    ReadStrings(ctx, StringFlagNames).Ok? && ReadConfigBool(ctx, "skip-metaphor-services").Ok? &&
    ReadConfigStringSlice(ctx, "addons").Ok?
  }

  /** validateInstallationFlags over the cloud, bot password and git provider that were read. */
  function ValidationError(ctx: Context): Option<InstallError>
    requires ReadStrings(ctx, StringFlagNames).Ok?
  {
    var v := ReadStrings(ctx, StringFlagNames).value;
    ValidateInstallationFlags(v[3], v[5], v[0])
  }

  /** What ProcessInstallerGenericFlags returns and the addon registry it leaves. */
  datatype Processed = Processed(flags: InstallerGenericFlags, addons: seq<string>)

  /**
   * ProcessInstallerGenericFlags: the reads in order, the addons, validation,
   * then the experimental-mode tweaks. The record is built as the code
   * builds it, with the owner read in RepoGitops and OrgGitops left empty. Any failure returns the error (the Go
   * code pairs it with an empty record); addons registered before a later
   * failure stay registered, which the Err case does not carry.
   */
  method ProcessInstallerGenericFlags(ctx: Context, k1Version: string, registry: seq<string>) returns (r: Result<Processed>)
    ensures r.Ok? ==>
      var v := ReadStrings(ctx, StringFlagNames);
      v.Ok? && ReadConfigBool(ctx, "skip-metaphor-services").Ok? && ReadConfigBool(ctx, "experimental-mode").Ok? &&
      ReadConfigStringSlice(ctx, "addons").Ok? &&
      ValidateInstallationFlags(v.value[3], v.value[5], v.value[0]) == None &&
      r.value.flags == ExperimentalModeTweaks(AssembleAsWritten(v.value, ReadConfigBool(ctx, "skip-metaphor-services").value,
        ReadConfigBool(ctx, "experimental-mode").value), k1Version) &&
      r.value.addons == registry + ReadConfigStringSlice(ctx, "addons").value + MandatoryAddons(v.value[3]) &&
      r.value.flags.RepoGitops == v.value[8] && r.value.flags.OrgGitops == ""
    ensures ReadStrings(ctx, StringFlagNames).Err? ==> r == Err(ReadStrings(ctx, StringFlagNames).error)
    ensures ReadStrings(ctx, StringFlagNames).Ok? && ReadConfigBool(ctx, "skip-metaphor-services").Err? ==>
      r == Err(ReadConfigBool(ctx, "skip-metaphor-services").error)
    ensures (ReadStrings(ctx, StringFlagNames).Ok? && ReadConfigBool(ctx, "skip-metaphor-services").Ok? &&
      ReadConfigStringSlice(ctx, "addons").Err?) ==> r == Err(ReadConfigStringSlice(ctx, "addons").error)
    ensures ReadsSucceed(ctx) && ReadConfigBool(ctx, "experimental-mode").Err? ==>
      r == Err(ReadConfigBool(ctx, "experimental-mode").error)
    ensures ReadsSucceed(ctx) && ReadConfigBool(ctx, "experimental-mode").Ok? && ValidationError(ctx).Some? ==>
      r == Err(Message(ValidationError(ctx).value))
    ensures (ReadStrings(ctx, StringFlagNames).Ok? && ReadStrings(ctx, StringFlagNames).value[3] == "" &&
      ReadConfigBool(ctx, "skip-metaphor-services").Ok? && ReadConfigStringSlice(ctx, "addons").Ok? &&
      ReadConfigBool(ctx, "experimental-mode").Ok?) ==> r == Err(Message(MissingCloud))
    ensures r.Ok? <==> ReadsSucceed(ctx) && ReadConfigBool(ctx, "experimental-mode").Ok? && ValidationError(ctx).None?
  {
    var v := ReadStrings(ctx, StringFlagNames);
    if v.Err? {
      return Err(v.error);
    }
    var skipMetaphor := ReadConfigBool(ctx, "skip-metaphor-services");
    if skipMetaphor.Err? {
      return Err(skipMetaphor.error);
    }
    var addonsFlag := ReadConfigStringSlice(ctx, "addons");
    if addonsFlag.Err? {
      return Err(addonsFlag.error);
    }
    var addons := SelectAddons(registry, addonsFlag.value, v.value[3]);
    var experimental := ReadConfigBool(ctx, "experimental-mode");
    if experimental.Err? {
      return Err(experimental.error);
    }
    var err := ValidateInstallationFlags(v.value[3], v.value[5], v.value[0]);
    if err.Some? {
      return Err(Message(err.value));
    }
    var flags := AssembleAsWritten(v.value, skipMetaphor.value, experimental.value);
    return Ok(Processed(ExperimentalModeTweaks(flags, k1Version), addons));
  }
}
