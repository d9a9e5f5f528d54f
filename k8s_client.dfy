/** Where the Kubernetes client reads its kubeconfig from. */
module K8sClient {
  import opened GoStrings

  /** os.Getenv: an unset variable reads as "". */
  function Getenv(env: map<string, string>, name: string): string {
    if name in env then env[name] else ""
  }

  /**
   * filepath.Join(home, ".kube", "config"): an empty home drops out, and the
   * separators at the end of home are not doubled.
   */
  function DefaultKubeConfig(home: string): (p: string)
    ensures HasPrefix(p, TrimRight(home, '/'))
    ensures home == "" ==> p == ".kube/config"
    ensures home != "" ==> p == TrimRight(home, '/') + "/.kube/config"
  {
    if home == "" then ".kube/config" else TrimRight(home, '/') + "/.kube/config"
  }

  /**
   * returnKubeConfigPath: an explicit path wins, then a non-empty KUBECONFIG,
   * then the .kube/config file under the home directory. The path is never
   * empty.
   */
  function ReturnKubeConfigPath(kubeConfigPath: string, env: map<string, string>, home: string): (kubeconfig: string)
    ensures kubeConfigPath != "" ==> kubeconfig == kubeConfigPath
    ensures kubeConfigPath == "" && Getenv(env, "KUBECONFIG") != "" ==> kubeconfig == env["KUBECONFIG"]
    ensures kubeConfigPath == "" && Getenv(env, "KUBECONFIG") == "" ==> kubeconfig == DefaultKubeConfig(home)
    ensures kubeconfig != ""
  {
    if kubeConfigPath != "" then kubeConfigPath
    else if Getenv(env, "KUBECONFIG") != "" then Getenv(env, "KUBECONFIG")
    else DefaultKubeConfig(home)
  }

  /** The client's recorded kubeconfig path; the clientset and REST config are not modelled. */
  datatype KubernetesClient = KubernetesClient(KubeConfigPath: string)

  const InCluster := "in-cluster"

  /**
   * CreateKubeConfig, when building the client succeeds: an in-cluster
   * client records "in-cluster" whatever path is given, any other the path
   * returnKubeConfigPath chooses.
   */
  function CreateKubeConfig(inCluster: bool, kubeConfigPath: string, env: map<string, string>, home: string)
    : (client: KubernetesClient)
    ensures inCluster ==> client.KubeConfigPath == InCluster
    ensures !inCluster ==> client.KubeConfigPath == ReturnKubeConfigPath(kubeConfigPath, env, home)
  {
    if inCluster then KubernetesClient(InCluster)
    else KubernetesClient(ReturnKubeConfigPath(kubeConfigPath, env, home))
  }

  /** Neither the environment nor the home directory matters once a path is given. */
  lemma ExplicitPathWins(kubeConfigPath: string, env1: map<string, string>, env2: map<string, string>, home1: string, home2: string)
    requires kubeConfigPath != ""
    ensures ReturnKubeConfigPath(kubeConfigPath, env1, home1) == ReturnKubeConfigPath(kubeConfigPath, env2, home2)
  {
  }
}
