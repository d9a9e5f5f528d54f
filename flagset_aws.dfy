/** The consistency rules for the AWS settings of an installation. */
module FlagsetAws {
  import opened Wrappers

  const CloudAws := "aws"

  /** The viper keys validateAwsFlags reads, as ProcessAwsFlags has set them. */
  datatype AwsSettings = AwsSettings(
    cloud: string,
    hostedZoneName: string,
    region: string,
    arn: string,
    profile: string,
    gitProvider: string,
    nodesGraviton: bool)

  /** The errors validateAwsFlags can return; Message gives each one's text. */
  datatype AwsError = MissingHostedZone | MissingRegion | NoCredentials | BothCredentials | GitlabGraviton

  function Message(e: AwsError): string {
    match e
    case MissingHostedZone => "missing flag --hosted-zone-name for an aws installation"
    case MissingRegion => "missing flag --region for an aws installation"
    case NoCredentials => "must provide profile or aws-assume-role argument for aws installations of kubefirst"
    case BothCredentials => "must provide only one of these arguments: profile or aws-assume-role"
    case GitlabGraviton => "GitLab only support x86 compute nodes"
  }

  /**
   * validateAwsFlags: None is a nil error. A cloud other than aws is not
   * checked at all; otherwise the first failing rule, in this order, gives the error.
   */
  function ValidateAwsFlags(v: AwsSettings): (err: Option<AwsError>)
    ensures v.cloud != CloudAws ==> err == None
    ensures err == Some(MissingHostedZone) <==> v.cloud == CloudAws && v.hostedZoneName == ""
    ensures err == Some(MissingRegion) <==> v.cloud == CloudAws && v.hostedZoneName != "" && v.region == ""
    ensures err == Some(NoCredentials) <==>
      v.cloud == CloudAws && v.hostedZoneName != "" && v.region != "" && v.arn == "" && v.profile == ""
    ensures err == Some(BothCredentials) <==>
      v.cloud == CloudAws && v.hostedZoneName != "" && v.region != "" && v.arn != "" && v.profile != ""
    ensures err == Some(GitlabGraviton) ==> v.gitProvider == "gitlab" && v.nodesGraviton
  {
    if v.cloud != CloudAws then None
    else if |v.hostedZoneName| < 1 then Some(MissingHostedZone)
    else if |v.region| < 1 then Some(MissingRegion)
    else if v.arn == "" && v.profile == "" then Some(NoCredentials)
    else if v.arn != "" && v.profile != "" then Some(BothCredentials)
    else if v.gitProvider == "gitlab" && v.nodesGraviton then Some(GitlabGraviton)
    else None
  }

  /** The settings an aws installation accepts, stated as one condition. */
  predicate AwsAcceptable(v: AwsSettings) {
    v.hostedZoneName != "" && v.region != "" && ((v.arn == "") != (v.profile == "")) &&
    !(v.gitProvider == "gitlab" && v.nodesGraviton)
  }

  /** Validation passes exactly when the cloud is not aws or the settings are acceptable. */
  lemma ValidateAwsFlagsAccepts(v: AwsSettings)
    ensures ValidateAwsFlags(v) == None <==> v.cloud != CloudAws || AwsAcceptable(v)
  {
  }

  /** The package's init tests: profile alone and role alone pass; both, or no hosted zone, fail. */
  lemma ValidateAwsFlagsExamples()
    ensures ValidateAwsFlags(AwsSettings("aws", "my.domain.com", "eu-central-1", "", "default", "github", false)) == None
    ensures ValidateAwsFlags(AwsSettings("aws", "my.domain.com", "eu-central-1", "role", "", "github", false)) == None
    ensures ValidateAwsFlags(AwsSettings("aws", "", "", "", "", "github", false)) == Some(MissingHostedZone)
    ensures ValidateAwsFlags(AwsSettings("aws", "my.domain.com", "", "", "", "github", false)) == Some(MissingRegion)
    ensures ValidateAwsFlags(AwsSettings("aws", "my.domain.com", "eu-central-1", "role", "default", "github", false))
      == Some(BothCredentials)
  {
  }
}
