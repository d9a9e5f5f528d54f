/**
 * The install-progress watcher: a queue of install-step names that a poll of
 * the cluster record advances by at most one step.
 */
module ProvisionWatcher {
  import opened Wrappers
  import opened ApiTypes
  import GoStrings
  import Provision

  /** An install step; StepName gives the name the queue holds for it. */
  datatype Step =
    | InstallTools | DomainLiveness | KBotSetup | GitInit | GitOpsReady
    | GitTerraformApply | GitOpsPushed | CloudTerraformApply | ClusterSecretsCreated
    | ArgoCDInstall | ArgoCDInitialize | VaultInitialized | VaultTerraformApply
    | UsersTerraformApply | FinalCheck

  function StepName(step: Step): string {
    match step
    case InstallTools => "Install Tools"
    case DomainLiveness => "Domain Liveness"
    case KBotSetup => "KBot Setup"
    case GitInit => "Git Init"
    case GitOpsReady => "GitOps Ready"
    case GitTerraformApply => "Git Terraform Apply"
    case GitOpsPushed => "GitOps Pushed"
    case CloudTerraformApply => "Cloud Terraform Apply"
    case ClusterSecretsCreated => "Cluster Secrets Created"
    case ArgoCDInstall => "ArgoCD Install"
    case ArgoCDInitialize => "ArgoCD Initialize"
    case VaultInitialized => "Vault Initialized"
    case VaultTerraformApply => "Vault Terraform Apply"
    case UsersTerraformApply => "Users Terraform Apply"
    case FinalCheck => "Final Check"
  }

  const ProvisionComplete := "Provision Complete"

  /** The queue of a new watcher, in install order. */
  const InitialSteps: seq<Step> := [
    InstallTools, DomainLiveness, KBotSetup, GitInit, GitOpsReady, GitTerraformApply,
    GitOpsPushed, CloudTerraformApply, ClusterSecretsCreated, ArgoCDInstall,
    ArgoCDInitialize, VaultInitialized, VaultTerraformApply, UsersTerraformApply, FinalCheck]

  /** What ClusterClient.GetCluster answered: a record, ErrNotFound, or another error. */
  datatype Lookup = Found(cluster: Cluster) | NotFound | LookupFailed(error: string)

  /** The error a poll reports, if any, and the queue it leaves. */
  datatype Poll = Poll(err: Option<string>, steps: seq<Step>)

  /**
   * mapClusterStepStatus followed by the lookup `clusterStepStatus[step]`:
   * the record's check for the step.
   */
  function MapClusterStepStatus(c: Cluster, step: Step): bool {
    match step
    case InstallTools => c.InstallToolsCheck
    case DomainLiveness => c.DomainLivenessCheck
    case KBotSetup => c.KbotSetupCheck
    case GitInit => c.GitInitCheck
    case GitOpsReady => c.GitopsReadyCheck
    case GitTerraformApply => c.GitTerraformApplyCheck
    case GitOpsPushed => c.GitopsPushedCheck
    case CloudTerraformApply => c.CloudTerraformApplyCheck
    case ClusterSecretsCreated => c.ClusterSecretsCreatedCheck
    case ArgoCDInstall => c.ArgoCDInstallCheck
    case ArgoCDInitialize => c.ArgoCDInitializeCheck
    case VaultInitialized => c.VaultInitializedCheck
    case VaultTerraformApply => c.VaultTerraformApplyCheck
    case UsersTerraformApply => c.UsersTerraformApplyCheck
    case FinalCheck => c.FinalCheck
  }

  predicate Completed(c: Cluster, step: Step) {
    MapClusterStepStatus(c, step)
  }

  /** A poll reads the current step exactly when it finds a healthy record; that needs a step. */
  predicate CanPoll(steps: seq<Step>, lookup: Lookup) {
    lookup.Found? && lookup.cluster.Status != "error" ==> steps != []
  }

  /** UpdateProvisionProgress on a queue, given what the lookup answered. */
  function Update(clusterName: string, steps: seq<Step>, lookup: Lookup): (p: Poll)
    requires CanPoll(steps, lookup)
    ensures p.steps == steps || (steps != [] && p.steps == steps[1..])
    ensures p.steps != steps <==>
      lookup.Found? && lookup.cluster.Status != "error" && Completed(lookup.cluster, steps[0])
    ensures p.err == None <==> lookup.NotFound? || (lookup.Found? && lookup.cluster.Status != "error")
    ensures lookup.Found? && lookup.cluster.Status == "error" ==>
      p.err == Some(Provision.ErrorStatePrefix + lookup.cluster.LastCondition)
    ensures lookup.LookupFailed? ==> p.err == Some(Provision.RetrievalError(clusterName, lookup.error))
  {
    match lookup
    case NotFound => Poll(None, steps)
    case LookupFailed(e) => Poll(Some(Provision.RetrievalError(clusterName, e)), steps)
    case Found(c) =>
      if c.Status == "error" then Poll(Some(Provision.ErrorStatePrefix + c.LastCondition), steps)
      else if Completed(c, steps[0]) then Poll(None, steps[1..])
      else Poll(None, steps)
  }

  /** A failed lookup's message names the watched cluster, quoted, and carries the client's error. */
  lemma FailedPollNamesCluster(clusterName: string, steps: seq<Step>, e: string)
    ensures var err := Update(clusterName, steps, LookupFailed(e)).err;
      err.Some? && GoStrings.Contains(err.value, GoStrings.Quote(clusterName)) && GoStrings.Contains(err.value, e)
  {
    Provision.RetrievalErrorNames(clusterName, e);
  }

  /** How many steps at the front of the queue the record already marks complete. */
  function LeadingDone(c: Cluster, steps: seq<Step>): (n: nat)
    ensures n <= |steps|
    decreases |steps|
  {
    if steps == [] || !Completed(c, steps[0]) then 0 else 1 + LeadingDone(c, steps[1..])
  }

  /** The steps counted are all complete, and the one after them is not. */
  lemma {:induction false} LeadingDoneMeaning(c: Cluster, steps: seq<Step>)
    ensures var n := LeadingDone(c, steps);
      (forall i :: 0 <= i < n ==> Completed(c, steps[i])) && (n < |steps| ==> !Completed(c, steps[n]))
    decreases |steps|
  {
    if steps != [] && Completed(c, steps[0]) {
      var rest := steps[1..];
      LeadingDoneMeaning(c, rest);
      var n := LeadingDone(c, rest);
      forall i | 0 <= i < n + 1 ensures Completed(c, steps[i]) {
        if i > 0 {
          assert steps[i] == rest[i - 1];
        }
      }
      if n + 1 < |steps| {
        assert steps[n + 1] == rest[n];
      }
    }
  }

  lemma {:induction false} LeadingDoneAll(c: Cluster, steps: seq<Step>)
    requires forall i :: 0 <= i < |steps| ==> Completed(c, steps[i])
    ensures LeadingDone(c, steps) == |steps|
    decreases |steps|
  {
    if steps != [] {
      LeadingDoneAll(c, steps[1..]);
    }
  }

  /** The queue after `k` polls in a row that all find the same healthy record. */
  function Repoll(clusterName: string, steps: seq<Step>, c: Cluster, k: nat): seq<Step>
    requires c.Status != "error" && k <= |steps|
    decreases k
  {
    if k == 0 then steps
    else Repoll(clusterName, Update(clusterName, steps, Found(c)).steps, c, k - 1)
  }

  /** One healthy poll pops the head exactly when its check is true. */
  lemma RepollStep(clusterName: string, steps: seq<Step>, c: Cluster, k: nat)
    requires c.Status != "error" && 0 < k <= |steps|
    ensures Repoll(clusterName, steps, c, k) ==
      Repoll(clusterName, if Completed(c, steps[0]) then steps[1..] else steps, c, k - 1)
  {
  }

  /** `k` steps of popping the head while its check is true, without the poll around it. */
  function Walk(steps: seq<Step>, c: Cluster, k: nat): seq<Step>
    requires k <= |steps|
    decreases k
  {
    if k == 0 then steps
    else Walk(if Completed(c, steps[0]) then steps[1..] else steps, c, k - 1)
  }

  lemma {:induction false} RepollIsWalk(clusterName: string, steps: seq<Step>, c: Cluster, k: nat)
    requires c.Status != "error" && k <= |steps|
    ensures Repoll(clusterName, steps, c, k) == Walk(steps, c, k)
    decreases k
  {
    if k > 0 {
      RepollStep(clusterName, steps, c, k);
      RepollIsWalk(clusterName, if Completed(c, steps[0]) then steps[1..] else steps, c, k - 1);
    }
  }

  lemma {:induction false} WalkAdvances(steps: seq<Step>, c: Cluster, k: nat)
    requires k <= |steps|
    ensures var n := LeadingDone(c, steps);
      Walk(steps, c, k) == steps[if k < n then k else n..]
    decreases k
  {
    if k > 0 {
      if Completed(c, steps[0]) {
        var rest := steps[1..];
        WalkAdvances(rest, c, k - 1);
        var n := LeadingDone(c, rest);
        var m := if k - 1 < n then k - 1 else n;
        assert LeadingDone(c, steps) == 1 + n;
        assert rest[m..] == steps[1 + m..];
      } else {
        WalkAdvances(steps, c, k - 1);
        assert LeadingDone(c, steps) == 0;
        assert steps[0..] == steps;
      }
    }
  }

  /**
   * Repeated polls walk through the steps the record marks complete, one per
   * poll, and then stay on the first step that is not complete.
   */
  lemma RepollAdvances(clusterName: string, steps: seq<Step>, c: Cluster, k: nat)
    requires c.Status != "error" && k <= |steps|
    ensures var n := LeadingDone(c, steps);
      Repoll(clusterName, steps, c, k) == steps[if k < n then k else n..]
  {
    RepollIsWalk(clusterName, steps, c, k);
    WalkAdvances(steps, c, k);
  }

  /**
   * A record with every check true empties a queue in exactly as many polls
   * as it has steps: fifteen for a new watcher.
   */
  lemma AllChecksCompleteQueue(clusterName: string, steps: seq<Step>, c: Cluster)
    requires c.Status != "error" && forall i :: 0 <= i < |steps| ==> Completed(c, steps[i])
    ensures Repoll(clusterName, steps, c, |steps|) == []
    ensures forall k :: 0 <= k < |steps| ==> Repoll(clusterName, steps, c, k) != []
  {
    LeadingDoneAll(c, steps);
    RepollAdvances(clusterName, steps, c, |steps|);
    forall k | 0 <= k < |steps| ensures Repoll(clusterName, steps, c, k) != [] {
      RepollAdvances(clusterName, steps, c, k);
    }
  }

  class Watcher {
    var clusterName: string
    var installSteps: seq<Step>

    /** Steps only ever leave from the front: the queue is a suffix of InitialSteps. */
    ghost predicate Valid()
      reads this
    {
      |installSteps| <= |InitialSteps| &&
      installSteps == InitialSteps[|InitialSteps| - |installSteps|..]
    }

    /** NewProvisionWatcher: all fifteen steps queued, none complete. */
    constructor (clusterName: string)
      ensures Valid() && this.clusterName == clusterName
      ensures installSteps == InitialSteps && |installSteps| == 15
      ensures StepName(installSteps[0]) == "Install Tools" && StepName(installSteps[14]) == "Final Check"
      ensures !IsComplete()
    {
      this.clusterName := clusterName;
      installSteps := InitialSteps;
    }

    function IsComplete(): (done: bool)
      reads this
      ensures done <==> |installSteps| == 0
    {
      |installSteps| == 0
    }

    /** Indexes the queue's first element, so it needs a step. */
    function GetCurrentStep(): (name: string)
      reads this
      requires installSteps != []
      ensures name == StepName(installSteps[0])
    {
      StepName(installSteps[0])
    }

    /** popStep. */
    method PopStep() returns (step: string)
      requires Valid()
      modifies this`installSteps
      ensures Valid()
      ensures old(installSteps) == [] ==> step == ProvisionComplete && installSteps == []
      ensures old(installSteps) != [] ==>
        step == StepName(old(installSteps)[0]) && installSteps == old(installSteps)[1..]
    {
      if |installSteps| == 0 {
        return ProvisionComplete;
      }
      step := StepName(installSteps[0]);
      installSteps := installSteps[1..];
    }

    method UpdateProvisionProgress(lookup: Lookup) returns (err: Option<string>)
      requires Valid() && CanPoll(installSteps, lookup)
      modifies this`installSteps
      ensures Valid()
      ensures Poll(err, installSteps) == Update(clusterName, old(installSteps), lookup)
    {
      match lookup {
        case NotFound =>
          return None;
        case LookupFailed(e) =>
          return Some(Provision.RetrievalError(clusterName, e));
        case Found(c) =>
          if c.Status == "error" {
            return Some(Provision.ErrorStatePrefix + c.LastCondition);
          }
          if MapClusterStepStatus(c, installSteps[0]) {
            var _ := PopStep();
          }
          return None;
      }
    }
  }
}
