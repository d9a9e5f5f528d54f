/**
 * The decision rules of the k3d create command: which of the GitHub flags
 * may be set together, who owns the gitops repository, how the destination
 * is described, which template branch is cloned, and which remote URL the
 * repository is pushed to. The surrounding calls to GitHub, GitLab, viper
 * and the cluster are replaced by the values they return.
 */
module K3dCreate {
  import opened Wrappers
  import opened GoStrings

  const GithubHost := "github.com"
  const GitlabHost := "gitlab.com"

  /** The template repository the flag defaults to, and the same URL without ".git". */
  const DefaultTemplateURL := "https://github.com/konstructio/gitops-template.git"
  const DefaultTemplateURLNoGit := "https://github.com/konstructio/gitops-template"

  const Development := "development"

  const BothOwnerFlagsError := "only one of --github-user or --github-org can be supplied"
  const NoGitlabGroupError := "please provide a gitlab group using the --gitlab-group flag"
  const NoGitlabTokenError := "GITLAB_TOKEN environment variable unset - please set it and try again"
  const BranchRequiredError := "must supply gitops-template-branch flag when gitops-template-url is overridden"

  /** Either the organization or the user may be given for GitHub, not both. */
  function CheckOwnerFlags(githubOrgFlag: string, githubUserFlag: string): (err: Option<string>)
    ensures err.Some? <==> githubOrgFlag != "" && githubUserFlag != ""
    ensures err.Some? ==> err.value == BothOwnerFlagsError
  {
    if githubOrgFlag != "" && githubUserFlag != "" then Some(BothOwnerFlagsError) else None
  }

  /**
   * The GitHub owner: the organization when one is given, otherwise the
   * login of the user the token authenticates. The user flag's own value is
   * never taken as the owner.
   */
  function GithubOwner(githubOrgFlag: string, githubUserFlag: string, githubUser: string): (owner: string)
    ensures githubOrgFlag != "" ==> owner == githubOrgFlag
    ensures githubOrgFlag == "" ==> owner == githubUser
  {
    if githubOrgFlag != "" then githubOrgFlag
    else if githubUserFlag != "" then githubUser
    else githubUser
  }

  /** Whatever the user flag holds, the owner is the same. */
  lemma UserFlagNotTheOwner(githubOrgFlag: string, flag1: string, flag2: string, githubUser: string)
    ensures GithubOwner(githubOrgFlag, flag1, githubUser) == GithubOwner(githubOrgFlag, flag2, githubUser)
  {
  }

  /** What the provider switch hands on: the git host and the owner of the gitops repository. */
  datatype Owner = Owner(host: string, owner: string)

  const GitlabUserErrorPrefix := "unable to get authenticated user info - please make sure GITLAB_TOKEN env var is set "

  /**
   * What the provider switch's service calls answered: the scope checks of
   * the GitHub and GitLab tokens (None when they pass, otherwise their
   * error), the authenticated GitHub login, the parent group path the
   * GitLab client found, and the authenticated GitLab user.
   */
  datatype GitAnswers = GitAnswers(
    githubScopes: Option<string>, githubUser: Result<string>,
    gitlabScopes: Option<string>, gitlabParentGroupPath: Result<string>, gitlabUser: Result<string>)

  /** Some call of the GitHub branch failed. */
  predicate GithubFails(ans: GitAnswers) {
    ans.githubScopes.Some? || ans.githubUser.Err?
  }

  /** The flags, the token or some call of the GitLab branch failed. */
  predicate GitlabFails(gitlabGroupFlag: string, gitlabToken: string, ans: GitAnswers) {
    gitlabGroupFlag == "" || gitlabToken == "" ||
    ans.gitlabScopes.Some? || ans.gitlabParentGroupPath.Err? || ans.gitlabUser.Err?
  }

  /**
   * The provider switch. GitHub checks the token's scopes, asks for the
   * authenticated user and takes the owner rule above; GitLab needs a group
   * flag and a GITLAB_TOKEN, checks the token's scopes, builds a client for
   * the group and asks for the authenticated user, and takes the parent
   * group's path; each failing step returns its error and stops. Any other
   * provider is logged and leaves host and owner empty.
   */
  function ResolveOwner(gitProvider: string, githubOrgFlag: string, githubUserFlag: string,
                        gitlabGroupFlag: string, gitlabToken: string, ans: GitAnswers): (r: Result<Owner>)
    ensures gitProvider == "github" && ans.githubScopes.Some? ==> r == Err(ans.githubScopes.value)
    ensures gitProvider == "github" && ans.githubScopes.None? && ans.githubUser.Err? ==> r == Err(ans.githubUser.error)
    ensures gitProvider == "github" && !GithubFails(ans) ==>
      r == Ok(Owner(GithubHost, GithubOwner(githubOrgFlag, githubUserFlag, ans.githubUser.value)))
    ensures gitProvider == "gitlab" && gitlabGroupFlag == "" ==> r == Err(NoGitlabGroupError)
    ensures gitProvider == "gitlab" && gitlabGroupFlag != "" && gitlabToken == "" ==> r == Err(NoGitlabTokenError)
    ensures gitProvider == "gitlab" && gitlabGroupFlag != "" && gitlabToken != "" && ans.gitlabScopes.Some? ==>
      r == Err(ans.gitlabScopes.value)
    ensures (gitProvider == "gitlab" && gitlabGroupFlag != "" && gitlabToken != "" && ans.gitlabScopes.None? &&
      ans.gitlabParentGroupPath.Err?) ==> r == Err(ans.gitlabParentGroupPath.error)
    ensures (gitProvider == "gitlab" && gitlabGroupFlag != "" && gitlabToken != "" && ans.gitlabScopes.None? &&
      ans.gitlabParentGroupPath.Ok? && ans.gitlabUser.Err?) ==> r == Err(GitlabUserErrorPrefix + ans.gitlabUser.error)
    ensures gitProvider == "gitlab" && !GitlabFails(gitlabGroupFlag, gitlabToken, ans) ==>
      r == Ok(Owner(GitlabHost, ans.gitlabParentGroupPath.value))
    ensures gitProvider != "github" && gitProvider != "gitlab" ==> r == Ok(Owner("", ""))
    ensures r.Err? <==>
      (gitProvider == "github" && GithubFails(ans)) ||
      (gitProvider == "gitlab" && GitlabFails(gitlabGroupFlag, gitlabToken, ans))
  {
    match gitProvider
    case "github" =>
      if ans.githubScopes.Some? then Err(ans.githubScopes.value)
      else if ans.githubUser.Err? then Err(ans.githubUser.error)
      else Ok(Owner(GithubHost, GithubOwner(githubOrgFlag, githubUserFlag, ans.githubUser.value)))
    case "gitlab" =>
      if gitlabGroupFlag == "" then Err(NoGitlabGroupError)
      else if gitlabToken == "" then Err(NoGitlabTokenError)
      else if ans.gitlabScopes.Some? then Err(ans.gitlabScopes.value)
      else if ans.gitlabParentGroupPath.Err? then Err(ans.gitlabParentGroupPath.error)
      else if ans.gitlabUser.Err? then Err(GitlabUserErrorPrefix + ans.gitlabUser.error)
      else Ok(Owner(GitlabHost, ans.gitlabParentGroupPath.value))
    case _ => Ok(Owner("", ""))
  }

  /** Only the chosen provider's answers matter; the other provider's calls are never made. */
  lemma OtherProviderAnswersIgnored(gitProvider: string, githubOrgFlag: string, githubUserFlag: string,
                                    gitlabGroupFlag: string, gitlabToken: string, a1: GitAnswers, a2: GitAnswers)
    requires gitProvider == "github" ==> a1.githubScopes == a2.githubScopes && a1.githubUser == a2.githubUser
    requires gitProvider == "gitlab" ==> (a1.gitlabScopes == a2.gitlabScopes &&
      a1.gitlabParentGroupPath == a2.gitlabParentGroupPath && a1.gitlabUser == a2.gitlabUser)
    ensures ResolveOwner(gitProvider, githubOrgFlag, githubUserFlag, gitlabGroupFlag, gitlabToken, a1) ==
      ResolveOwner(gitProvider, githubOrgFlag, githubUserFlag, gitlabGroupFlag, gitlabToken, a2)
  {
  }

  /**
   * The destination descriptor shown before confirming: the three GitHub
   * checks run one after another, so a set user flag overrides a set
   * organization; GitLab is a group; any other provider has none.
   */
  function DescribeDestination(gitProvider: string, githubOrgFlag: string, githubUserFlag: string): (descriptor: string)
    ensures gitProvider == "github" ==>
      (descriptor == "Organization" <==> githubOrgFlag != "" && githubUserFlag == "")
    ensures gitProvider == "github" ==>
      (descriptor == "User" <==> !(githubOrgFlag != "" && githubUserFlag == ""))
    ensures gitProvider == "gitlab" ==> descriptor == "Group"
    ensures gitProvider != "github" && gitProvider != "gitlab" ==> descriptor == ""
  {
    match gitProvider
    case "github" =>
      var d1 := if githubOrgFlag != "" then "Organization" else "";
      var d2 := if githubUserFlag != "" then "User" else d1;
      if githubUserFlag == "" && githubOrgFlag == "" then "User" else d2
    case "gitlab" => "Group"
    case _ => ""
  }

  /**
   * The template branch. In the development version only a URL containing
   * the default template gets "main" for an empty branch; any other URL
   * keeps the branch as it is, empty or not. In any other version the
   * default URL, with or without ".git", gets the version as its branch
   * when none is given, and any other URL without a branch is an error.
   */
  function ResolveBranch(k1Version: string, gitopsTemplateURL: string, gitopsTemplateBranch: string): (r: Result<string>)
    ensures gitopsTemplateBranch != "" ==> r == Ok(gitopsTemplateBranch)
    ensures r.Err? <==>
      k1Version != Development && gitopsTemplateBranch == "" &&
      gitopsTemplateURL != DefaultTemplateURL && gitopsTemplateURL != DefaultTemplateURLNoGit
    ensures r.Err? ==> r.error == BranchRequiredError
    ensures k1Version == Development && gitopsTemplateBranch == "" ==>
      r == Ok(if Contains(gitopsTemplateURL, DefaultTemplateURL) then "main" else "")
    ensures (k1Version != Development && gitopsTemplateBranch == "" &&
      (gitopsTemplateURL == DefaultTemplateURL || gitopsTemplateURL == DefaultTemplateURLNoGit)) ==>
      r == Ok(k1Version)
  {
    if k1Version == Development then
      if Contains(gitopsTemplateURL, DefaultTemplateURL) && gitopsTemplateBranch == "" then Ok("main")
      else Ok(gitopsTemplateBranch)
    else if gitopsTemplateURL == DefaultTemplateURL || gitopsTemplateURL == DefaultTemplateURLNoGit then
      if gitopsTemplateBranch == "" then Ok(k1Version) else Ok(gitopsTemplateBranch)
    else if gitopsTemplateBranch == "" then Err(BranchRequiredError)
    else Ok(gitopsTemplateBranch)
  }

  /**
   * A branch that comes back empty is one the development version left
   * alone for a URL other than the default, or the version itself when it
   * is empty.
   */
  lemma EmptyBranchOnlyInDevelopment(k1Version: string, gitopsTemplateURL: string, gitopsTemplateBranch: string)
    requires ResolveBranch(k1Version, gitopsTemplateURL, gitopsTemplateBranch) == Ok("")
    ensures gitopsTemplateBranch == ""
    ensures (k1Version == Development && !Contains(gitopsTemplateURL, DefaultTemplateURL)) || k1Version == ""
  {
  }

  /** A URL that merely contains the default one still gets "main" in development. */
  lemma DevelopmentAcceptsLongerURL(prefix: string, suffix: string)
    ensures ResolveBranch(Development, prefix + DefaultTemplateURL + suffix, "") == Ok("main")
  {
    ContainsAt(DefaultTemplateURL, DefaultTemplateURL, 0);
    ContainsWithin(DefaultTemplateURL, DefaultTemplateURL, prefix, suffix);
  }

  /** The https remote of the gitops repository. */
  function HttpsRepoURL(host: string, owner: string): (url: string)
    ensures |url| == 9 + |host| + |owner| + 11
    ensures url[..8] == "https://" && url[8..8 + |host|] == host && url[8 + |host|] == '/'
    ensures url[9 + |host|..|url| - 11] == owner && url[|url| - 11..] == "/gitops.git"
  {
    "https://" + host + "/" + owner + "/gitops.git"
  }

  /** The ssh remote of the gitops repository. */
  function GitRepoURL(host: string, owner: string): (url: string)
    ensures |url| == 5 + |host| + |owner| + 11
    ensures url[..4] == "git@" && url[4..4 + |host|] == host && url[4 + |host|] == ':'
    ensures url[5 + |host|..|url| - 11] == owner && url[|url| - 11..] == "/gitops.git"
  {
    "git@" + host + ":" + owner + "/gitops.git"
  }

  /** The owner is recovered from either remote of a host, so two owners never share one. */
  lemma RepoURLsDetermineOwner(host: string, owner1: string, owner2: string)
    ensures HttpsRepoURL(host, owner1) == HttpsRepoURL(host, owner2) ==> owner1 == owner2
    ensures GitRepoURL(host, owner1) == GitRepoURL(host, owner2) ==> owner1 == owner2
    ensures HttpsRepoURL(host, owner1) != GitRepoURL(host, owner2)
  {
    var h1, g2 := HttpsRepoURL(host, owner1), GitRepoURL(host, owner2);
    assert h1[..8][0] == 'h' && g2[..4][0] == 'g';
  }

  /** The remote the gitops repository is pushed to: https exactly for the "https" protocol. */
  function GitopsRepoURL(gitProtocol: string, host: string, owner: string): (url: string)
    ensures gitProtocol == "https" <==> url == HttpsRepoURL(host, owner)
    ensures gitProtocol != "https" <==> url == GitRepoURL(host, owner)
  {
    RepoURLsDetermineOwner(host, owner, owner);
    if gitProtocol == "https" then HttpsRepoURL(host, owner) else GitRepoURL(host, owner)
  }

  /** What the rules settle before the cluster is created. */
  datatype Plan = Plan(host: string, owner: string, descriptor: string, branch: string, gitopsRepoURL: string)

  /** The inputs the rules read: the flags, the version, and what GitHub and GitLab answered. */
  datatype Inputs = Inputs(
    gitProvider: string, gitProtocol: string,
    githubOrgFlag: string, githubUserFlag: string,
    gitlabGroupFlag: string, gitlabToken: string, answers: GitAnswers,
    k1Version: string, gitopsTemplateURL: string, gitopsTemplateBranch: string)

  /**
   * The rules of runK3d in the order they run: the flag exclusivity check,
   * the provider switch, the descriptor, the branch and the remote. The
   * first failing rule's error is returned.
   */
  method RunK3dRules(inp: Inputs) returns (r: Result<Plan>)
    ensures CheckOwnerFlags(inp.githubOrgFlag, inp.githubUserFlag).Some? ==> r == Err(BothOwnerFlagsError)
    ensures r.Ok? <==>
      CheckOwnerFlags(inp.githubOrgFlag, inp.githubUserFlag).None? &&
      ResolveOwner(inp.gitProvider, inp.githubOrgFlag, inp.githubUserFlag,
                   inp.gitlabGroupFlag, inp.gitlabToken, inp.answers).Ok? &&
      ResolveBranch(inp.k1Version, inp.gitopsTemplateURL, inp.gitopsTemplateBranch).Ok?
    ensures r.Ok? ==>
      var o := ResolveOwner(inp.gitProvider, inp.githubOrgFlag, inp.githubUserFlag,
                            inp.gitlabGroupFlag, inp.gitlabToken, inp.answers).value;
      r.value == Plan(o.host, o.owner,
                      DescribeDestination(inp.gitProvider, inp.githubOrgFlag, inp.githubUserFlag),
                      ResolveBranch(inp.k1Version, inp.gitopsTemplateURL, inp.gitopsTemplateBranch).value,
                      GitopsRepoURL(inp.gitProtocol, o.host, o.owner))
  {
    var err := CheckOwnerFlags(inp.githubOrgFlag, inp.githubUserFlag);
    if err.Some? {
      return Err(err.value);
    }
    var owner := ResolveOwner(inp.gitProvider, inp.githubOrgFlag, inp.githubUserFlag,
                              inp.gitlabGroupFlag, inp.gitlabToken, inp.answers);
    if owner.Err? {
      return Err(owner.error);
    }
    var descriptor := DescribeDestination(inp.gitProvider, inp.githubOrgFlag, inp.githubUserFlag);
    var branch := ResolveBranch(inp.k1Version, inp.gitopsTemplateURL, inp.gitopsTemplateBranch);
    if branch.Err? {
      return Err(branch.error);
    }
    var gitopsRepoURL := GitopsRepoURL(inp.gitProtocol, owner.value.host, owner.value.owner);
    return Ok(Plan(owner.value.host, owner.value.owner, descriptor, branch.value, gitopsRepoURL));
  }

  /**
   * For GitHub, once the rules pass: the owner is the organization exactly
   * when the destination is described as one, and the user otherwise.
   */
  lemma GithubDescriptorMatchesOwner(inp: Inputs)
    requires inp.gitProvider == "github" && CheckOwnerFlags(inp.githubOrgFlag, inp.githubUserFlag).None?
    requires inp.answers.githubUser.Ok?
    ensures var d := DescribeDestination(inp.gitProvider, inp.githubOrgFlag, inp.githubUserFlag);
      var owner := GithubOwner(inp.githubOrgFlag, inp.githubUserFlag, inp.answers.githubUser.value);
      (d == "Organization" ==> owner == inp.githubOrgFlag) &&
      (d == "User" ==> owner == inp.answers.githubUser.value) &&
      (d == "Organization" || d == "User")
  {
  }
}
