/** The completed-steps summary shown while a cluster provisions. */
module Progress {
  import opened ApiTypes

  /** CompletedStepsLabels, in install order. */
  const Labels: seq<string> := [
    "Installing tools", "Domain liveness check", "Kbot setup", "Initializing Git",
    "Initializing gitops", "Git Terraform apply", "Gitops repos pushed",
    "Cloud Terraform apply", "Creating cluster secrets", "Installing Argo CD",
    "Initializing Argo CD", "Initializing Vault", "Vault Terraform apply",
    "Users Terraform apply"]

  const WrappingUp := "Wrapping up"

  /** The label announced after step `i` completes: the following label, or "Wrapping up" after the last. */
  function NextLabel(labels: seq<string>, i: nat): string
    requires i < |labels|
  {
    if i + 1 < |labels| then labels[i + 1] else WrappingUp
  }

  /** The positions of the true checks, in increasing order. */
  function TrueIndices(checks: seq<bool>): (idx: seq<nat>)
    ensures forall j, k :: 0 <= j < k < |idx| ==> idx[j] < idx[k]
    ensures forall j :: 0 <= j < |idx| ==> idx[j] < |checks| && checks[idx[j]]
    ensures forall k :: 0 <= k < |checks| && checks[k] ==> k in idx
    decreases |checks|
  {
    if |checks| == 0 then []
    else
      var last := |checks| - 1;
      var front := checks[..last];
      assert forall k :: 0 <= k < last ==> front[k] == checks[k];
      TrueIndices(front) + (if checks[last] then [last] else [])
  }

  /** The number of true checks. */
  function CountTrue(checks: seq<bool>): nat
    decreases |checks|
  {
    if |checks| == 0 then 0 else (if checks[0] then 1 else 0) + CountTrue(checks[1..])
  }

  /** There are as many true positions as there are true checks. */
  lemma {:induction false} TrueIndicesCount(checks: seq<bool>)
    ensures |TrueIndices(checks)| == CountTrue(checks) <= |checks|
    decreases |checks|
  {
    if |checks| > 0 {
      var last := |checks| - 1;
      TrueIndicesCount(checks[..last]);
      CountTrueSnoc(checks[..last], checks[last]);
      assert checks[..last] + [checks[last]] == checks;
    }
  }

  lemma {:induction false} CountTrueSnoc(s: seq<bool>, b: bool)
    ensures CountTrue(s + [b]) == CountTrue(s) + (if b then 1 else 0)
    decreases |s|
  {
    if |s| > 0 {
      assert (s + [b])[1..] == s[1..] + [b];
      CountTrueSnoc(s[1..], b);
    }
  }

  /** The labels at the given positions. */
  function LabelsAt(labels: seq<string>, idx: seq<nat>): (r: seq<string>)
    requires forall j :: 0 <= j < |idx| ==> idx[j] < |labels|
    ensures |r| == |idx| && forall j :: 0 <= j < |idx| ==> r[j] == labels[idx[j]]
  {
    seq(|idx|, j requires 0 <= j < |idx| => labels[idx[j]])
  }

  lemma LabelsAtSnoc(labels: seq<string>, idx: seq<nat>, i: nat)
    requires i < |labels| && forall j :: 0 <= j < |idx| ==> idx[j] < |labels|
    ensures LabelsAt(labels, idx + [i]) == LabelsAt(labels, idx) + [labels[i]]
  {
  }

  /** The label after the last true check, or "" when no check is true. */
  function NextStep(labels: seq<string>, checks: seq<bool>): string
    requires |checks| <= |labels|
  {
    var idx := TrueIndices(checks);
    if idx == [] then "" else NextLabel(labels, idx[|idx| - 1])
  }

  lemma TrueIndicesSnoc(s: seq<bool>, b: bool)
    ensures TrueIndices(s + [b]) == TrueIndices(s) + (if b then [|s|] else [])
  {
    assert (s + [b])[..|s|] == s;
  }

  /**
   * BuildCompletedSteps: the labels of exactly the true checks, in install
   * order, and the label after the last true check ("" when none is true).
   * Each check is tested on its own: a false check does not hide later ones.
   */
  method BuildCompletedSteps(cluster: Cluster) returns (completedSteps: seq<string>, nextStep: string)
    ensures completedSteps == LabelsAt(Labels, TrueIndices(InstallChecks(cluster)))
    ensures nextStep == NextStep(Labels, InstallChecks(cluster))
    ensures |completedSteps| == CountTrue(InstallChecks(cluster)) <= 14
    ensures cluster.UsersTerraformApplyCheck ==> nextStep == WrappingUp
    ensures (forall k :: 0 <= k < 14 ==> !InstallChecks(cluster)[k]) ==> completedSteps == [] && nextStep == ""
  {
    var checks := InstallChecks(cluster);
    completedSteps, nextStep := Summarize(checks, Labels);
    TrueIndicesCount(checks);
    if cluster.UsersTerraformApplyCheck {
      assert checks == checks[..13] + [true];
      TrueIndicesSnoc(checks[..13], true);
    }
  }

  /** The loop of BuildCompletedSteps over the checks in install order. */
  method Summarize(checks: seq<bool>, labels: seq<string>) returns (completedSteps: seq<string>, nextStep: string)
    requires |checks| <= |labels|
    ensures completedSteps == LabelsAt(labels, TrueIndices(checks))
    ensures nextStep == NextStep(labels, checks)
  {
    completedSteps := [];
    nextStep := "";
    for i := 0 to |checks|
      invariant completedSteps == LabelsAt(labels, TrueIndices(checks[..i]))
      invariant nextStep == NextStep(labels, checks[..i])
    {
      SummarizeStep(checks, labels, i);
      if checks[i] {
        completedSteps := completedSteps + [labels[i]];
        nextStep := NextLabel(labels, i);
      }
    }
    assert checks[..|checks|] == checks;
  }

  /** One more check extends the summary by its label exactly when it is true. */
  lemma SummarizeStep(checks: seq<bool>, labels: seq<string>, i: nat)
    requires i < |checks| <= |labels|
    ensures LabelsAt(labels, TrueIndices(checks[..i + 1])) ==
      LabelsAt(labels, TrueIndices(checks[..i])) + (if checks[i] then [labels[i]] else [])
    ensures NextStep(labels, checks[..i + 1]) == if checks[i] then NextLabel(labels, i) else NextStep(labels, checks[..i])
  {
    assert checks[..i + 1] == checks[..i] + [checks[i]];
    TrueIndicesSnoc(checks[..i], checks[i]);
    if checks[i] {
      LabelsAtSnoc(labels, TrueIndices(checks[..i]), i);
    }
  }
}
