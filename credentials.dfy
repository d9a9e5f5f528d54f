/** The `root-credentials` commands: whether a platform is there to ask about, and the report of its credentials. */
module Credentials {
  import opened Wrappers
  import opened GoStrings
  import opened GoMaps
  import Sorting

  /** pkg.BetaProviders. */
  const BetaProviders: seq<string> := ["digitalocean", "vultr"]

  /** The name used in the "get started" hint: beta providers are announced as such. */
  function PlatformHint(expectedCloudProvider: string): (hint: string)
    ensures expectedCloudProvider in BetaProviders ==> hint == "beta " + expectedCloudProvider
    ensures expectedCloudProvider !in BetaProviders ==> hint == expectedCloudProvider
  {
    if expectedCloudProvider in BetaProviders then "beta " + expectedCloudProvider else expectedCloudProvider
  }

  /** The completion flags EvalAuth reads from the config. */
  datatype CompletionFlags = CompletionFlags(SetupComplete: bool, CloudProvider: string, GitProvider: string)

  datatype AuthError =
    | NoActivePlatform(platformHint: string)
    | ProvidersUnknown
    | OtherPlatformDeployed(cloudProvider: string)

  function Message(e: AuthError): string {
    match e
    case NoActivePlatform(hint) =>
      "There are no active kubefirst platforms to retrieve credentials for.\n\tTo get started, run: kubefirst " +
      hint + " create -h\n"
    case ProvidersUnknown => "could not parse cloud and git provider information from config"
    case OtherPlatformDeployed(cloud) =>
      "it looks like the current deployed platform is " + cloud + " - try running this command for that provider"
  }

  /** What EvalAuth decides once the hint is known. */
  function AuthCheck(expectedCloudProvider: string, flags: CompletionFlags): Option<AuthError> {
    if !flags.SetupComplete then Some(NoActivePlatform(PlatformHint(expectedCloudProvider)))
    else if flags.CloudProvider == "" || flags.GitProvider == "" then Some(ProvidersUnknown)
    else if flags.CloudProvider != expectedCloudProvider then Some(OtherPlatformDeployed(flags.CloudProvider))
    else None
  }

  /**
   * EvalAuth: true, with no error, exactly when setup is complete, both
   * providers are recorded and the recorded cloud is the expected one.
   */
  method EvalAuth(expectedCloudProvider: string, expectedGitProvider: string, flags: CompletionFlags)
    returns (ok: bool, err: Option<AuthError>)
    ensures err == AuthCheck(expectedCloudProvider, flags)
    ensures ok <==> err == None
  {
    var platformHint := expectedCloudProvider;
    for i := 0 to |BetaProviders|
      invariant platformHint == (if expectedCloudProvider in BetaProviders[..i] then "beta " + expectedCloudProvider
                                 else expectedCloudProvider)
    {
      assert BetaProviders[..i + 1] == BetaProviders[..i] + [BetaProviders[i]];
      if expectedCloudProvider == BetaProviders[i] {
        platformHint := "beta " + expectedCloudProvider;
      }
    }
    assert BetaProviders[..|BetaProviders|] == BetaProviders;
    if !flags.SetupComplete {
      return false, Some(NoActivePlatform(platformHint));
    }
    if flags.CloudProvider == "" || flags.GitProvider == "" {
      return false, Some(ProvidersUnknown);
    } else if flags.CloudProvider != expectedCloudProvider {
      return false, Some(OtherPlatformDeployed(flags.CloudProvider));
    }
    return true, None;
  }

  /** The deployed git provider is only checked for being recorded, never against the expected one. */
  lemma GitProviderNotCompared(expectedCloudProvider: string, flags: CompletionFlags, otherGit: string)
    requires flags.GitProvider != "" && otherGit != ""
    ensures AuthCheck(expectedCloudProvider, flags) == AuthCheck(expectedCloudProvider, flags.(GitProvider := otherGit))
    ensures AuthCheck(expectedCloudProvider, flags) == None <==>
      flags.SetupComplete && flags.CloudProvider == expectedCloudProvider && expectedCloudProvider != ""
  {
  }

  /** The credential-report options: which value, if any, goes to the clipboard instead. */
  datatype CredentialOptions = CredentialOptions(
    CopyArgoCDPasswordToClipboard: bool, CopyKbotPasswordToClipboard: bool, CopyVaultPasswordToClipboard: bool)

  datatype Credential = ArgoCDPassword | KbotPassword | VaultRootToken

  /** What ParseAuthData ends with: a credential put on the clipboard, a notice that there was none, or a report. */
  datatype AuthOutput = Clipboard(what: Credential, value: string) | NothingCopied | Report(text: string)

  /** The line printed after each outcome other than the report. */
  function Notice(out: AuthOutput): string {
    match out
    case Clipboard(ArgoCDPassword, _) =>
      "The ArgoCD initial admin password has been copied to the clipboard. Note that if you change this password, this value is no longer valid."
    case Clipboard(KbotPassword, _) => "The kbot password has been copied to the clipboard."
    case Clipboard(VaultRootToken, _) => "The Vault root token has been copied to the clipboard."
    case NothingCopied => "The Vault root token secret does not exist and was not copied to the clipboard."
    case Report(_) => ""
  }

  const ArgoCDKey := "ArgoCD Admin Password"
  const KbotKey := "KBot User Password"
  const VaultKey := "Vault Root Token"

  /** The report's parameters for the three credentials. */
  function Params(argoCDPassword: string, kbotPassword: string, vaultRootToken: string): map<string, string> {
    (if argoCDPassword != "" then map[ArgoCDKey := argoCDPassword] else map[]) +
    (if kbotPassword != "" then map[KbotKey := kbotPassword] else map[]) +
    (if vaultRootToken != "" then map[VaultKey := vaultRootToken] else map[])
  }

  /** The report's parameters: each credential that is not empty, under its label, and nothing else. */
  lemma ParamsContents(argoCDPassword: string, kbotPassword: string, vaultRootToken: string)
    ensures var params := Params(argoCDPassword, kbotPassword, vaultRootToken);
      (ArgoCDKey in params <==> argoCDPassword != "") &&
      (KbotKey in params <==> kbotPassword != "") &&
      (VaultKey in params <==> vaultRootToken != "") &&
      (forall k :: k in params ==> k in {ArgoCDKey, KbotKey, VaultKey} && params[k] != "") &&
      (ArgoCDKey in params ==> params[ArgoCDKey] == argoCDPassword) &&
      (KbotKey in params ==> params[KbotKey] == kbotPassword) &&
      (VaultKey in params ==> params[VaultKey] == vaultRootToken)
  {
  }

  /** The parameter map built key by key, as ParseAuthData builds it. */
  method BuildParams(argoCDPassword: string, kbotPassword: string, vaultRootToken: string) returns (params: map<string, string>)
    ensures params == Params(argoCDPassword, kbotPassword, vaultRootToken)
  {
    params := map[];
    if argoCDPassword != "" {
      params := params[ArgoCDKey := argoCDPassword];
    }
    if kbotPassword != "" {
      params := params[KbotKey := kbotPassword];
    }
    if vaultRootToken != "" {
      params := params[VaultKey := vaultRootToken];
    }
  }

  /** One report line. */
  function Line(name: string, auth: string): string {
    name + ": " + auth + "\n\n"
  }

  /** The report lines for the keys in the order given. */
  function Lines(params: map<string, string>, order: seq<string>): string
    requires forall j :: 0 <= j < |order| ==> order[j] in params
    decreases |order|
  {
    if |order| == 0 then "" else Line(order[0], params[order[0]]) + Lines(params, order[1..])
  }

  /** The 70-dash rule around the header. */
  function Rule(): string {
    Repeat("-", 70)
  }

  function Header(messageHeader: string): string {
    Rule() + "\n" + messageHeader + "\n" + Rule() + "\n\n"
  }

  const NoCredentials := "No credentials were retrived."

  /** The report text printAuthData builds when it visits the keys in `order`. */
  function AuthText(messageHeader: string, params: map<string, string>, order: seq<string>): string
    requires forall j :: 0 <= j < |order| ==> order[j] in params
  {
    Header(messageHeader) + (if |params| == 0 then NoCredentials else "") + Lines(params, order)
  }

  /** `text` is the report of `params` under the header, printed in the visiting order `order`. */
  ghost predicate IsReport(text: string, messageHeader: string, params: map<string, string>, order: seq<string>) {
    VisitsEachKey(params, order) && (forall j :: 0 <= j < |order| ==> order[j] in params) &&
    text == AuthText(messageHeader, params, order)
  }

  /**
   * printAuthData: a framed header, the no-credentials notice when there are
   * no parameters, then one line per parameter in the map's visiting order.
   */
  method PrintAuthData(messageHeader: string, params: map<string, string>) returns (text: string, ghost order: seq<string>)
    ensures IsReport(text, messageHeader, params, order)
  {
    var createAuthData := Header(messageHeader);
    if |params| == 0 {
      createAuthData := createAuthData + NoCredentials;
    }
    ghost var start := createAuthData;
    assert start == Header(messageHeader) + (if |params| == 0 then NoCredentials else "");
    order := [];
    var todo := params.Keys;
    while todo != {}
      invariant todo <= params.Keys
      invariant Printed(params, order, todo, start, createAuthData)
      decreases todo
    {
      var name :| name in todo;
      PrintOne(params, order, todo, start, createAuthData, name);
      createAuthData := createAuthData + Line(name, params[name]);
      order := order + [name];
      todo := todo - {name};
    }
    assert params.Keys - todo == params.Keys;
    return createAuthData, order;
  }

  /** What printAuthData has built once the keys outside `todo` are visited in `order`. */
  ghost predicate Printed(params: map<string, string>, order: seq<string>, todo: set<string>, start: string, text: string) {
    (forall j :: 0 <= j < |order| ==> order[j] in params) &&
    (forall k :: multiset(order)[k] == (if k in params.Keys - todo then 1 else 0)) &&
    text == start + Lines(params, order)
  }

  /** Visiting one more key keeps Printed. */
  lemma PrintOne(params: map<string, string>, order: seq<string>, todo: set<string>, start: string, text: string,
                 name: string)
    requires todo <= params.Keys && name in todo && Printed(params, order, todo, start, text)
    ensures Printed(params, order + [name], todo - {name}, start, text + Line(name, params[name]))
  {
    LinesSnoc(params, order, name);
    assert multiset(order + [name]) == multiset(order) + multiset{name};
    assert params.Keys - (todo - {name}) == (params.Keys - todo) + {name};
  }

  lemma {:induction false} LinesSnoc(params: map<string, string>, order: seq<string>, k: string)
    requires forall j :: 0 <= j < |order| ==> order[j] in params
    requires k in params
    ensures forall j :: 0 <= j < |order + [k]| ==> (order + [k])[j] in params
    ensures Lines(params, order + [k]) == Lines(params, order) + Line(k, params[k])
    decreases |order|
  {
    if |order| == 0 {
      assert order + [k] == [k];
      assert [k][1..] == [];
    } else {
      assert (order + [k])[1..] == order[1..] + [k];
      LinesSnoc(params, order[1..], k);
    }
  }

  /** Every visited parameter's line occurs in the lines. */
  lemma {:induction false} LinesContain(params: map<string, string>, order: seq<string>, j: nat)
    requires forall i :: 0 <= i < |order| ==> order[i] in params
    requires j < |order|
    ensures Contains(Lines(params, order), Line(order[j], params[order[j]]))
    decreases j
  {
    var l := Line(order[0], params[order[0]]);
    var s := Lines(params, order);
    if j == 0 {
      assert s[0..|l|] == l;
      ContainsAt(s, l, 0);
    } else {
      LinesContain(params, order[1..], j - 1);
      assert s[|l|..] == Lines(params, order[1..]);
      ContainsSuffix(s, Line(order[j], params[order[j]]), |l|);
    }
  }

  /**
   * The report states each parameter as "<label>: <value>", and says that no
   * credentials were found exactly when there are no parameters.
   */
  lemma AuthTextContents(messageHeader: string, params: map<string, string>, order: seq<string>)
    requires VisitsEachKey(params, order)
    ensures forall j :: 0 <= j < |order| ==> order[j] in params
    ensures forall k :: k in params ==> Contains(AuthText(messageHeader, params, order), Line(k, params[k]))
    ensures |params| == 0 ==> Contains(AuthText(messageHeader, params, order), NoCredentials)
  {
    VisitedAreKeys(params, order);
    var h := Header(messageHeader) + (if |params| == 0 then NoCredentials else "");
    var t := AuthText(messageHeader, params, order);
    assert t[|h|..] == Lines(params, order);
    forall k | k in params ensures Contains(t, Line(k, params[k])) {
      assert multiset(order)[k] == 1;
      var j :| 0 <= j < |order| && order[j] == k;
      LinesContain(params, order, j);
      ContainsSuffix(t, Line(k, params[k]), |h|);
    }
    if |params| == 0 {
      var p := Header(messageHeader);
      assert t[|p|..|p| + |NoCredentials|] == NoCredentials;
      ContainsAt(t, NoCredentials, |p|);
    }
  }

  /**
   * The report's lines follow the visiting order: two labels with different
   * first letters come out in different texts depending on which is visited first.
   */
  lemma VisitOrderShows(messageHeader: string, params: map<string, string>, k1: string, k2: string)
    requires k1 in params && k2 in params && k1 != "" && k2 != "" && k1[0] != k2[0]
    ensures AuthText(messageHeader, params, [k1, k2]) != AuthText(messageHeader, params, [k2, k1])
  {
    var h := Header(messageHeader) + (if |params| == 0 then NoCredentials else "");
    assert [k1, k2][1..] == [k2];
    assert [k2, k1][1..] == [k1];
    assert AuthText(messageHeader, params, [k1, k2])[|h|] == k1[0];
    assert AuthText(messageHeader, params, [k2, k1])[|h|] == k2[0];
  }

  /** The report with its lines in sorted label order, as the sorting step of ParseAuthData meant. */
  method PrintAuthDataSorted(messageHeader: string, params: map<string, string>) returns (text: string)
    ensures forall order :: VisitsEachKey(params, order) ==>
      (forall j :: 0 <= j < |Sorting.Sort(order)| ==> Sorting.Sort(order)[j] in params) &&
      text == AuthText(messageHeader, params, Sorting.Sort(order))
  {
    var paramKeys: seq<string> := [];
    var todo := params.Keys;
    while todo != {}
      invariant todo <= params.Keys
      invariant forall k :: multiset(paramKeys)[k] == (if k in params.Keys - todo then 1 else 0)
      decreases todo
    {
      var k :| k in todo;
      paramKeys := paramKeys + [k];
      todo := todo - {k};
    }
    var sorted := Sorting.Sort(paramKeys);
    VisitedAreKeys(params, paramKeys);
    SortKeepsKeys(params, paramKeys);
    text := Header(messageHeader) + (if |params| == 0 then NoCredentials else "") + Lines(params, sorted);
    forall order | VisitsEachKey(params, order)
      ensures (forall j :: 0 <= j < |Sorting.Sort(order)| ==> Sorting.Sort(order)[j] in params) &&
        text == AuthText(messageHeader, params, Sorting.Sort(order))
    {
      VisitOrdersPermute(params, paramKeys, order);
      Sorting.SortIgnoresOrder(paramKeys, order);
    }
  }

  lemma SortKeepsKeys(params: map<string, string>, order: seq<string>)
    requires VisitsEachKey(params, order)
    ensures forall j :: 0 <= j < |Sorting.Sort(order)| ==> Sorting.Sort(order)[j] in params
  {
    var s := Sorting.Sort(order);
    forall j | 0 <= j < |s| ensures s[j] in params {
      assert s[j] in multiset(s);
      assert multiset(order)[s[j]] > 0;
    }
  }

  /**
   * ParseAuthData after the secrets are read. `vaultResolves` is None when
   * the Vault address resolves and otherwise the resolution error;
   * `typedToken` is what the user types when no root token was found;
   * `kbotLookup` is what asking Vault for the kbot password returned. The
   * report is printed from the unsorted parameter map, so its lines come in
   * the map's visiting order `order`.
   */
  method ParseAuthData(cloudProvider: string, vaultSecret: map<string, string>, argoCDSecret: map<string, string>,
                       vaultResolves: Option<string>, typedToken: string, kbotLookup: string, opts: CredentialOptions)
    returns (out: AuthOutput, ghost order: seq<string>)
    ensures opts.CopyArgoCDPasswordToClipboard ==> out == Clipboard(ArgoCDPassword, Get(argoCDSecret, "password"))
    ensures !opts.CopyArgoCDPasswordToClipboard && opts.CopyKbotPasswordToClipboard ==>
      out == Clipboard(KbotPassword, KbotPasswordOf(vaultResolves, kbotLookup))
    ensures !opts.CopyArgoCDPasswordToClipboard && !opts.CopyKbotPasswordToClipboard && opts.CopyVaultPasswordToClipboard ==>
      out == (if VaultToken(vaultSecret, vaultResolves, typedToken) != ""
              then Clipboard(VaultRootToken, VaultToken(vaultSecret, vaultResolves, typedToken)) else NothingCopied)
    ensures out.Report? <==>
      !opts.CopyArgoCDPasswordToClipboard && !opts.CopyKbotPasswordToClipboard && !opts.CopyVaultPasswordToClipboard
    ensures out.Report? ==>
      IsReport(out.text, ReportHeader(cloudProvider),
        ReportParams(vaultSecret, argoCDSecret, vaultResolves, typedToken, kbotLookup), order)
  {
    order := [];
    var argoCDPassword, kbotPassword, vaultRootToken :=
      ReadCredentials(vaultSecret, argoCDSecret, vaultResolves, typedToken, kbotLookup);
    if opts.CopyArgoCDPasswordToClipboard {
      out := Clipboard(ArgoCDPassword, argoCDPassword);
    } else if opts.CopyKbotPasswordToClipboard {
      out := Clipboard(KbotPassword, kbotPassword);
    } else if opts.CopyVaultPasswordToClipboard {
      out := if vaultRootToken != "" then Clipboard(VaultRootToken, vaultRootToken) else NothingCopied;
    } else {
      var message;
      message, order := ReportCredentials(cloudProvider, argoCDPassword, kbotPassword, vaultRootToken);
      ReportParamsAre(vaultSecret, argoCDSecret, vaultResolves, typedToken, kbotLookup,
        argoCDPassword, kbotPassword, vaultRootToken);
      out := Report(message);
    }
  }

  /**
   * The first half of ParseAuthData: the root token from the Vault secret,
   * the Argo CD password from its secret, and, when Vault resolves, the typed
   * token in place of a missing root token and Vault's kbot password.
   */
  method ReadCredentials(vaultSecret: map<string, string>, argoCDSecret: map<string, string>,
                         vaultResolves: Option<string>, typedToken: string, kbotLookup: string)
    returns (argoCDPassword: string, kbotPassword: string, vaultRootToken: string)
    ensures argoCDPassword == Get(argoCDSecret, "password")
    ensures kbotPassword == KbotPasswordOf(vaultResolves, kbotLookup)
    ensures vaultRootToken == VaultToken(vaultSecret, vaultResolves, typedToken)
  {
    vaultRootToken := "";
    if |vaultSecret| != 0 {
      vaultRootToken := Get(vaultSecret, "root-token");
    }
    argoCDPassword := Get(argoCDSecret, "password");
    if vaultResolves.None? {
      if vaultRootToken == "" {
        vaultRootToken := typedToken;
      }
      kbotPassword := kbotLookup;
    } else {
      kbotPassword := KbotPasswordOf(vaultResolves, kbotLookup);
    }
  }

  /**
   * The final output of ParseAuthData: the report of the non-empty
   * credentials. The sorted key list is computed and then left unused, so
   * the lines follow the visiting order of the unsorted map.
   */
  method ReportCredentials(cloudProvider: string, argoCDPassword: string, kbotPassword: string, vaultRootToken: string)
    returns (text: string, ghost order: seq<string>)
    ensures IsReport(text, ReportHeader(cloudProvider), Params(argoCDPassword, kbotPassword, vaultRootToken), order)
  {
    var params := BuildParams(argoCDPassword, kbotPassword, vaultRootToken);
    text, order := PrintAuthData(ReportHeader(cloudProvider), params);
  }

  const AuthenticationNotice :=
    " Authentication\n\nKeep this data secure. These passwords can be used to access the following applications in your platform."

  /** The report's header: the cloud provider's name and the notice. */
  function ReportHeader(cloudProvider: string): string {
    cloudProvider + AuthenticationNotice
  }

  /** The parameters ParseAuthData reports: the three credentials it ends up with. */
  function ReportParams(vaultSecret: map<string, string>, argoCDSecret: map<string, string>,
                        vaultResolves: Option<string>, typedToken: string, kbotLookup: string): map<string, string> {
    Params(Get(argoCDSecret, "password"), KbotPasswordOf(vaultResolves, kbotLookup),
      VaultToken(vaultSecret, vaultResolves, typedToken))
  }

  lemma ReportParamsAre(vaultSecret: map<string, string>, argoCDSecret: map<string, string>,
                        vaultResolves: Option<string>, typedToken: string, kbotLookup: string,
                        argoCDPassword: string, kbotPassword: string, vaultRootToken: string)
    requires argoCDPassword == Get(argoCDSecret, "password")
    requires kbotPassword == KbotPasswordOf(vaultResolves, kbotLookup)
    requires vaultRootToken == VaultToken(vaultSecret, vaultResolves, typedToken)
    ensures ReportParams(vaultSecret, argoCDSecret, vaultResolves, typedToken, kbotLookup) ==
      Params(argoCDPassword, kbotPassword, vaultRootToken)
  {
  }

  /** A key's value in a secret's data, "" when absent. */
  function Get(data: map<string, string>, key: string): string {
    if key in data then data[key] else ""
  }

  /**
   * The Vault root token ParseAuthData ends up with: the secret's, or what the
   * user typed when the secret has none and Vault resolves.
   */
  function VaultToken(vaultSecret: map<string, string>, vaultResolves: Option<string>, typedToken: string): string {
    var fromSecret := if |vaultSecret| != 0 then Get(vaultSecret, "root-token") else "";
    if vaultResolves.None? && fromSecret == "" then typedToken else fromSecret
  }

  /** The kbot password: Vault's answer when the address resolves, else a notice to wait. */
  function KbotPasswordOf(vaultResolves: Option<string>, kbotLookup: string): string {
    match vaultResolves
    case None => kbotLookup
    case Some(e) => "Cannot resolve Vault yet: " + e + " - wait a few minutes and try again."
  }
}
