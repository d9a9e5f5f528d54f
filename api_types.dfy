/** The part of the kubefirst API's cluster record that install-progress tracking reads. */
module ApiTypes {
  datatype Cluster = Cluster(
    ClusterName: string,
    Status: string,
    LastCondition: string,
    InstallToolsCheck: bool,
    DomainLivenessCheck: bool,
    KbotSetupCheck: bool,
    GitInitCheck: bool,
    GitopsReadyCheck: bool,
    GitTerraformApplyCheck: bool,
    GitopsPushedCheck: bool,
    CloudTerraformApplyCheck: bool,
    ClusterSecretsCreatedCheck: bool,
    ArgoCDInstallCheck: bool,
    ArgoCDInitializeCheck: bool,
    VaultInitializedCheck: bool,
    VaultTerraformApplyCheck: bool,
    UsersTerraformApplyCheck: bool,
    FinalCheck: bool)

  /** The fourteen install checks, in install order. */
  function InstallChecks(c: Cluster): (checks: seq<bool>)
    ensures |checks| == 14
  {
    [c.InstallToolsCheck, c.DomainLivenessCheck, c.KbotSetupCheck, c.GitInitCheck,
     c.GitopsReadyCheck, c.GitTerraformApplyCheck, c.GitopsPushedCheck,
     c.CloudTerraformApplyCheck, c.ClusterSecretsCreatedCheck, c.ArgoCDInstallCheck,
     c.ArgoCDInitializeCheck, c.VaultInitializedCheck, c.VaultTerraformApplyCheck,
     c.UsersTerraformApplyCheck]
  }

  /** The record a Go function returns next to an error: every field at its zero value. */
  const ZeroCluster: Cluster := Cluster("", "", "", false, false, false, false, false, false,
    false, false, false, false, false, false, false, false, false)
}
