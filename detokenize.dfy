/**
 * Detokenisation of the k3d gitops and metaphor templates: every file of the
 * walked tree, except directories and files under ".git", has its tokens
 * replaced one token after another.
 */
module Detokenize {
  import opened Wrappers
  import opened GoStrings

  /** The k3d package's DomainName constant. */
  const DomainName := "kubefirst.dev"
  const AlertsEmail := "your@email.com"

  /** One replacement: every occurrence of `token` becomes `value`. */
  datatype Sub = Sub(token: string, value: string)

  /** The replacements applied in order, each to the text the previous one produced. */
  function ReplaceChain(text: string, subs: seq<Sub>): string
    decreases |subs|
  {
    if |subs| == 0 then text
    else ReplaceChain(ReplaceAll(text, subs[0].token, subs[0].value), subs[1..])
  }

  /** The chain after one more replacement is that replacement applied to the chain's text. */
  lemma {:induction false} ReplaceChainSnoc(text: string, subs: seq<Sub>, s: Sub)
    ensures ReplaceChain(text, subs + [s]) == ReplaceAll(ReplaceChain(text, subs), s.token, s.value)
    decreases |subs|
  {
    if |subs| == 0 {
      assert subs + [s] == [s];
    } else {
      assert (subs + [s])[1..] == subs[1..] + [s];
      ReplaceChainSnoc(ReplaceAll(text, subs[0].token, subs[0].value), subs[1..], s);
    }
  }

  /** Running two chains one after the other is running their concatenation. */
  lemma {:induction false} ReplaceChainAppend(text: string, a: seq<Sub>, b: seq<Sub>)
    ensures ReplaceChain(text, a + b) == ReplaceChain(ReplaceChain(text, a), b)
    decreases |a|
  {
    if |a| == 0 {
      assert a + b == b;
    } else {
      assert (a + b)[1..] == a[1..] + b;
      ReplaceChainAppend(ReplaceAll(text, a[0].token, a[0].value), a[1..], b);
    }
  }

  /** Text in which no token occurs comes back unchanged. */
  lemma {:induction false} ReplaceChainAbsent(text: string, subs: seq<Sub>)
    requires forall k :: 0 <= k < |subs| ==> !Contains(text, subs[k].token)
    ensures ReplaceChain(text, subs) == text
    decreases |subs|
  {
    if |subs| > 0 {
      ReplaceAllAbsent(text, subs[0].token, subs[0].value);
      ReplaceChainAbsent(text, subs[1..]);
    }
  }

  lemma ReplaceAllWhole(pat: string, rep: string)
    requires |pat| > 0
    ensures ReplaceAll(pat, pat, rep) == rep
  {
    assert pat[..|pat|] == pat;
    assert ReplaceAll(pat, pat, rep) == rep + ReplaceAll(pat[|pat|..], pat, rep);
  }

  /**
   * Replacement is sequential: a value that contains a later token is
   * rewritten by that later replacement.
   */
  lemma ValueRewrittenByLaterToken(a: string, b: string, c: string)
    requires |a| > 0 && |b| > 0
    ensures ReplaceChain(a, [Sub(a, b), Sub(b, c)]) == c
  {
    ReplaceAllWhole(a, b);
    ReplaceAllWhole(b, c);
    assert [Sub(a, b), Sub(b, c)][1..] == [Sub(b, c)];
    assert [Sub(b, c)][1..] == [];
    assert ReplaceChain(b, [Sub(b, c)]) == ReplaceChain(c, []);
  }

  /** Each step of the chain splits the text at the step's token and joins the pieces with its value. */
  lemma ReplaceChainStep(text: string, subs: seq<Sub>, k: nat)
    requires k < |subs| && |subs[k].token| > 0
    ensures ReplaceChain(text, subs[..k + 1]) ==
      Join(Split(ReplaceChain(text, subs[..k]), subs[k].token), subs[k].value)
  {
    assert subs[..k + 1] == subs[..k] + [subs[k]];
    ReplaceChainSnoc(text, subs[..k], subs[k]);
    ReplaceAllIsSplitJoin(ReplaceChain(text, subs[..k]), subs[k].token, subs[k].value);
  }

  /** The values the gitops pass substitutes (GitopsTokenValues, with the CLI version). */
  datatype GitopsTokenValues = GitopsTokenValues(
    GithubOwner: string, GithubUser: string, GitlabOwner: string, GitlabOwnerGroupID: int,
    GitlabUser: string, GitopsRepoGitURL: string, AtlantisAllowList: string, ClusterName: string,
    ClusterType: string, GithubHost: string, GitlabHost: string, ArgoWorkflowsIngressURL: string,
    VaultIngressURL: string, ArgocdIngressURL: string, AtlantisIngressURL: string,
    MetaphorDevelopmentIngressURL: string, MetaphorStagingIngressURL: string,
    MetaphorProductionIngressURL: string, KubefirstTeam: string, UseTelemetry: string,
    GitProvider: string, CloudProvider: string, ClusterId: string, KubeconfigPath: string)

  /** The gitops tokens, in the order detokenizeGitops replaces them. */
  const GitopsTokens: seq<string> := [
    "<ALERTS_EMAIL>", "<ARGOCD_INGRESS_URL>", "<ARGO_WORKFLOWS_INGRESS_URL>", "<ATLANTIS_ALLOW_LIST>",
    "<ATLANTIS_INGRESS_URL>", "<CLUSTER_NAME>", "<CLOUD_PROVIDER>", "<CLUSTER_ID>", "<CLUSTER_TYPE>",
    "<DOMAIN_NAME>", "<KUBEFIRST_TEAM>", "<KUBEFIRST_VERSION>", "<KUBE_CONFIG_PATH>",
    "<METAPHOR_DEVELOPMENT_INGRESS_URL>", "<METAPHOR_STAGING_INGRESS_URL>", "<METAPHOR_PRODUCTION_INGRESS_URL>",
    "<GITHUB_HOST>", "<GITHUB_OWNER>", "<GITHUB_USER>", "<GIT_PROVIDER>", "<GITOPS_REPO_GIT_URL>",
    "<GITLAB_HOST>", "<GITLAB_OWNER>", "<GITLAB_USER>", "<GITLAB_OWNER_GROUP_ID>", "<VAULT_INGRESS_URL>",
    "<USE_TELEMETRY>", "<K3D_DOMAIN>"]

  /** The value put in place of each gitops token, position by position. */
  function GitopsValues(t: GitopsTokenValues, k1Version: string): seq<string> {
    [AlertsEmail, t.ArgocdIngressURL, t.ArgoWorkflowsIngressURL, t.AtlantisAllowList,
     t.AtlantisIngressURL, t.ClusterName, t.CloudProvider, t.ClusterId, t.ClusterType,
     DomainName, t.KubefirstTeam, k1Version, t.KubeconfigPath,
     t.MetaphorDevelopmentIngressURL, t.MetaphorStagingIngressURL, t.MetaphorProductionIngressURL,
     t.GithubHost, ToLower(t.GithubOwner), t.GithubUser, t.GitProvider, t.GitopsRepoGitURL,
     t.GitlabHost, t.GitlabOwner, t.GitlabUser, Itoa(t.GitlabOwnerGroupID), t.VaultIngressURL,
     t.UseTelemetry, DomainName]
  }

  function Zip(tokens: seq<string>, values: seq<string>): (subs: seq<Sub>)
    requires |tokens| == |values|
    ensures |subs| == |tokens| && forall k :: 0 <= k < |tokens| ==> subs[k] == Sub(tokens[k], values[k])
  {
    seq(|tokens|, k requires 0 <= k < |tokens| => Sub(tokens[k], values[k]))
  }

  /**
   * The replacements of the gitops pass: the owner goes in lower-cased, the
   * alerts e-mail is fixed, and both domain tokens take the DomainName constant.
   */
  function GitopsSubs(t: GitopsTokenValues, k1Version: string): (subs: seq<Sub>)
    ensures |subs| == 28 && forall k :: 0 <= k < 28 ==> subs[k].token == GitopsTokens[k]
    ensures subs[0] == Sub("<ALERTS_EMAIL>", "your@email.com")
    ensures subs[9] == Sub("<DOMAIN_NAME>", DomainName) && subs[27] == Sub("<K3D_DOMAIN>", DomainName)
    ensures subs[17] == Sub("<GITHUB_OWNER>", ToLower(t.GithubOwner))
    ensures subs[24] == Sub("<GITLAB_OWNER_GROUP_ID>", Itoa(t.GitlabOwnerGroupID))
    ensures forall k :: 0 <= k < 28 ==> |subs[k].token| > 0
  {
    Zip(GitopsTokens, GitopsValues(t, k1Version))
  }

  /** The values of the metaphor pass (MetaphorTokenValues). */
  datatype MetaphorTokenValues = MetaphorTokenValues(
    ClusterName: string, CloudRegion: string, ContainerRegistryURL: string, DomainName: string,
    MetaphorDevelopmentIngressURL: string, MetaphorStagingIngressURL: string, MetaphorProductionIngressURL: string)

  const MetaphorTokens: seq<string> := [
    "<METAPHOR_DEVELOPMENT_INGRESS_URL>", "<METAPHOR_STAGING_INGRESS_URL>", "<METAPHOR_PRODUCTION_INGRESS_URL>",
    "<CONTAINER_REGISTRY_URL>", "<DOMAIN_NAME>", "<CLOUD_REGION>", "<CLUSTER_NAME>"]

  /** The seven replacements of the metaphor pass; unlike the gitops pass, the domain comes from the values. */
  function MetaphorSubs(t: MetaphorTokenValues): (subs: seq<Sub>)
    ensures |subs| == 7 && forall k :: 0 <= k < 7 ==> subs[k].token == MetaphorTokens[k]
    ensures subs[4] == Sub("<DOMAIN_NAME>", t.DomainName)
  {
    Zip(MetaphorTokens, [t.MetaphorDevelopmentIngressURL, t.MetaphorStagingIngressURL,
      t.MetaphorProductionIngressURL, t.ContainerRegistryURL, t.DomainName, t.CloudRegion, t.ClusterName])
  }

  /** The single replacement of the post-run pass: the public MinIO address becomes the in-cluster one. */
  function PostRunSubs(): (subs: seq<Sub>)
    ensures subs == [Sub("https://minio.kubefirst.dev", "http://minio.minio.svc.cluster.local:9000")]
  {
    assert "https://minio." + DomainName == "https://minio.kubefirst.dev";
    [Sub("https://minio." + DomainName, "http://minio.minio.svc.cluster.local:9000")]
  }

  /** The successive strings.Replace calls over one file's text. */
  method DetokenizeContents(read: string, subs: seq<Sub>) returns (newContents: string)
    ensures newContents == ReplaceChain(read, subs)
  {
    newContents := read;
    for k := 0 to |subs|
      invariant newContents == ReplaceChain(read, subs[..k])
    {
      ReplaceChainSnoc(read, subs[..k], subs[k]);
      assert subs[..k + 1] == subs[..k] + [subs[k]];
      newContents := ReplaceAll(newContents, subs[k].token, subs[k].value);
    }
    assert subs[..|subs|] == subs;
  }

  /**
   * One visit of filepath.Walk: the error passed to the walk function, whether
   * the entry is a directory, and what reading and writing the file give.
   */
  datatype WalkEntry = WalkEntry(path: string, walkErr: Option<string>, isDir: bool, read: Result<string>, writeErr: Option<string>)

  /** A file the walk function rewrites: not a directory, and not under a ".git" directory. */
  predicate Rewritten(e: WalkEntry) {
    !e.isDir && !Contains(e.path, "/.git/")
  }

  /** The error one visit reports, if any. */
  function VisitError(e: WalkEntry): Option<string> {
    if e.walkErr.Some? then e.walkErr
    else if !Rewritten(e) then None
    else if e.read.Err? then Some(e.read.error)
    else e.writeErr
  }

  /** A file write: the path and the text written. */
  datatype Write = Write(path: string, contents: string)

  /** The writes of a walk over entries that all succeed. */
  function Writes(entries: seq<WalkEntry>, subs: seq<Sub>): seq<Write>
    requires forall j :: 0 <= j < |entries| ==> VisitError(entries[j]).None?
    decreases |entries|
  {
    if |entries| == 0 then []
    else
      var e := entries[|entries| - 1];
      assert VisitError(e).None?;
      Writes(entries[..|entries| - 1], subs) +
      (if Rewritten(e) then [Write(e.path, ReplaceChain(e.read.value, subs))] else [])
  }

  /** The index of the first failing visit; filepath.Walk stops there. */
  function FirstError(entries: seq<WalkEntry>): (r: Option<nat>)
    ensures r.Some? ==> r.value < |entries| && VisitError(entries[r.value]).Some?
    ensures r.Some? ==> forall j :: 0 <= j < r.value ==> VisitError(entries[j]).None?
    ensures r.None? ==> forall j :: 0 <= j < |entries| ==> VisitError(entries[j]).None?
    decreases |entries|
  {
    if |entries| == 0 then None
    else if VisitError(entries[0]).Some? then Some(0)
    else match FirstError(entries[1..])
      case None => None
      case Some(i) => Some(i + 1)
  }

  /** Only rewritten files are written, each with its own text detokenised. */
  lemma {:induction false} WritesSkipDirsAndGit(entries: seq<WalkEntry>, subs: seq<Sub>)
    requires forall j :: 0 <= j < |entries| ==> VisitError(entries[j]).None?
    ensures forall w :: w in Writes(entries, subs) ==>
      exists j :: (0 <= j < |entries| && Rewritten(entries[j]) && entries[j].path == w.path &&
        w.contents == ReplaceChain(entries[j].read.value, subs))
    ensures |Writes(entries, subs)| <= |entries|
    decreases |entries|
  {
    if |entries| > 0 {
      var n := |entries| - 1;
      var front := entries[..n];
      WritesSkipDirsAndGit(front, subs);
      forall w | w in Writes(entries, subs)
        ensures exists j :: (0 <= j < |entries| && Rewritten(entries[j]) &&
          entries[j].path == w.path && w.contents == ReplaceChain(entries[j].read.value, subs))
      {
        if w in Writes(front, subs) {
          var j :| 0 <= j < |front| && Rewritten(front[j]) && front[j].path == w.path &&
            w.contents == ReplaceChain(front[j].read.value, subs);
          assert entries[j] == front[j];
        } else {
          assert Rewritten(entries[n]) && w == Write(entries[n].path, ReplaceChain(entries[n].read.value, subs));
        }
      }
    }
  }

  /**
   * The walk with a detokenising walk function: files are rewritten in walk
   * order, and the first error stops the walk and is returned.
   */
  method DetokenizeWalk(entries: seq<WalkEntry>, subs: seq<Sub>) returns (writes: seq<Write>, err: Option<string>)
    ensures FirstError(entries).None? ==> err == None && writes == Writes(entries, subs)
    ensures FirstError(entries).Some? ==>
      var k := FirstError(entries).value;
      err == VisitError(entries[k]) && writes == Writes(entries[..k], subs) +
        (if Rewritten(entries[k]) && entries[k].walkErr.None? && entries[k].read.Ok?
         then [Write(entries[k].path, ReplaceChain(entries[k].read.value, subs))] else [])
  {
    writes := [];
    for i := 0 to |entries|
      invariant forall j :: 0 <= j < i ==> VisitError(entries[j]).None?
      invariant writes == Writes(entries[..i], subs)
    {
      var e := entries[i];
      assert entries[..i + 1][..i] == entries[..i];
      if e.walkErr.Some? {
        FirstErrorAt(entries, i);
        return writes, e.walkErr;
      }
      if !e.isDir && !Contains(e.path, "/.git/") {
        if e.read.Err? {
          FirstErrorAt(entries, i);
          return writes, Some(e.read.error);
        }
        var newContents := DetokenizeContents(e.read.value, subs);
        writes := writes + [Write(e.path, newContents)];
        if e.writeErr.Some? {
          FirstErrorAt(entries, i);
          return writes, e.writeErr;
        }
      }
    }
    assert entries[..|entries|] == entries;
    return writes, None;
  }

  lemma {:induction false} FirstErrorAt(entries: seq<WalkEntry>, i: nat)
    requires i < |entries| && VisitError(entries[i]).Some?
    requires forall j :: 0 <= j < i ==> VisitError(entries[j]).None?
    ensures FirstError(entries) == Some(i)
    decreases i
  {
    if i > 0 {
      FirstErrorAt(entries[1..], i - 1);
    }
  }

  /** detokenizeGitGitops: the gitops walk. */
  method DetokenizeGitGitops(entries: seq<WalkEntry>, tokens: GitopsTokenValues, k1Version: string)
    returns (writes: seq<Write>, err: Option<string>)
    ensures FirstError(entries).None? ==> err == None && writes == Writes(entries, GitopsSubs(tokens, k1Version))
    ensures FirstError(entries).Some? ==> err == VisitError(entries[FirstError(entries).value])
  {
    writes, err := DetokenizeWalk(entries, GitopsSubs(tokens, k1Version));
  }

  /** postRunDetokenizeGitGitops: the MinIO walk. */
  method PostRunDetokenizeGitGitops(entries: seq<WalkEntry>) returns (writes: seq<Write>, err: Option<string>)
    ensures FirstError(entries).None? ==> err == None && writes == Writes(entries, PostRunSubs())
    ensures FirstError(entries).Some? ==> err == VisitError(entries[FirstError(entries).value])
  {
    writes, err := DetokenizeWalk(entries, PostRunSubs());
  }

  /** detokenizeGitMetaphor: the metaphor walk. */
  method DetokenizeGitMetaphor(entries: seq<WalkEntry>, tokens: MetaphorTokenValues) returns (writes: seq<Write>, err: Option<string>)
    ensures FirstError(entries).None? ==> err == None && writes == Writes(entries, MetaphorSubs(tokens))
    ensures FirstError(entries).Some? ==> err == VisitError(entries[FirstError(entries).value])
  {
    writes, err := DetokenizeWalk(entries, MetaphorSubs(tokens));
  }

  /** The post-run pass is a single ReplaceAll of the public MinIO address. */
  lemma PostRunIsOneReplace(text: string)
    ensures ReplaceChain(text, PostRunSubs()) ==
      ReplaceAll(text, "https://minio.kubefirst.dev", "http://minio.minio.svc.cluster.local:9000")
  {
    var s := Sub("https://minio.kubefirst.dev", "http://minio.minio.svc.cluster.local:9000");
    assert [s][1..] == [];
  }
}
