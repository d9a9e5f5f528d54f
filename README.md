# kubefirst decision logic in Dafny

kubefirst is a command-line tool that provisions Kubernetes platforms:
it creates a cluster, pushes a gitops repository and installs Argo CD,
Vault and the rest on it. Most of its code drives cloud SDKs, Kubernetes,
git, Terraform and HTTP services. This project models the small pieces
of logic that sit between those calls:

- the provisioning progress queues: the watcher and `ClusterProvision`;
- the completed-steps summary and the progress-bar registry;
- how a CLI setting is read from the config file, a flag or the
  environment, and the AWS, installer, destroy and GitHub flag validators;
- the `reset` gate;
- the template helpers, subdomain stripping and the caller-path shortener;
- gitops detokenization;
- the Vault secret map and its unseal loop;
- GitLab token scopes and the GitLab name lookups and paginated listings;
- catalog validation and the root-credential report;
- the Civo quota report;
- the kubeconfig path precedence;
- the k3d create rules and the S3 location constraint.

Each Go file is one Dafny module with the same role. What the Go code
asks of a library or a service (viper, cobra, `os.Getenv`, the GitHub,
GitLab, Civo and S3 APIs, the cluster) becomes an input: a map for
viper, the flags and the environment, and a value or a `Result` for what
a call answered. `Result` and `Option` come from `Wrappers`; Go's string
and map idioms come from `GoStrings`, `GoMaps` and `Sorting`.

Go visits a map in an order it does not fix. Where the code ranges over a
map and the order is visible in the output, the model takes the order as
an input, or records it as a ghost output, constrained by
`GoMaps.VisitsEachKey`. The lemmas then say what holds for every order.

Where an object updates its own fields, the model is a class:
`ProvisionWatcher.Watcher`, `Provision.ClusterProvision` and
`ProgressPrinter.Printer`. Loops in the source are loops here, with
their invariants. Decision code that only computes a value is a function.

## Model

| member | source | states |
|---|---|---|
| ProvisionWatcher.Watcher.constructor | internal/provision/provisionWatcher.go:46-68 | a new watcher queues the fifteen steps in install order, from "Install Tools" to "Final Check", and is not complete |
| ProvisionWatcher.Watcher.IsComplete | internal/provision/provisionWatcher.go:78-80 | complete exactly when the step queue is empty |
| ProvisionWatcher.Watcher.GetCurrentStep | internal/provision/provisionWatcher.go:82-84 | the name of the head of the queue; the queue must not be empty, because the code indexes element 0 |
| ProvisionWatcher.Watcher.PopStep | internal/provision/provisionWatcher.go:86-94 | an empty queue gives "Provision Complete" and stays empty; otherwise the head's name is returned and exactly the head is removed, the rest keeping their order |
| ProvisionWatcher.Watcher.UpdateProvisionProgress | internal/provision/provisionWatcher.go:96-117 | the error and the new queue are those `Update` gives for the old queue, so the queue keeps its shape as a suffix of the initial steps |
| ProvisionWatcher.Update | internal/provision/provisionWatcher.go:96-117 | not found: no error, no change; another lookup error: exactly "error retrieving cluster " with the watcher's quoted cluster name, ": " and the client's error, which therefore contains both; status "error": "cluster in error state: " and the last condition, queue untouched; otherwise the head is popped exactly when its check is true, and never more than one step |
| ProvisionWatcher.FailedPollNamesCluster | internal/provision/provisionWatcher.go:103 | a failed lookup's message contains the watched cluster's quoted name and the client's error |
| ProvisionWatcher.LeadingDoneMeaning | internal/provision/provisionWatcher.go:110-114 | the number of leading queue steps `LeadingDone` counts: all of them are complete and the next one is not |
| ProvisionWatcher.LeadingDoneAll | internal/provision/provisionWatcher.go:110-114 | when every check is true, every step of the queue counts as done |
| ProvisionWatcher.RepollAdvances | internal/provision/provisionWatcher.go:110-114 | k polls finding the same healthy record remove min(k, LeadingDone) steps: the complete steps go one per poll, then the queue stops at the first incomplete step |
| ProvisionWatcher.RepollIsWalk | internal/provision/provisionWatcher.go:110-114 | each healthy poll pops the head exactly when its check is true, so k polls are k such steps |
| ProvisionWatcher.AllChecksCompleteQueue | internal/provision/provisionWatcher.go:110-114 | with every check true the queue empties after exactly as many polls as it has steps, and not before |
| Provision.ClusterProvision.constructor | internal/provision/provision.go:94-114 | a new ClusterProvision queues fourteen steps, from "Install Tools" to "Users Terraform Apply", with no final check, and is not complete |
| Provision.ClusterProvision.IsComplete | internal/provision/provision.go:120-122 | complete exactly when the step queue is empty |
| Provision.ClusterProvision.GetCurrentStep | internal/provision/provision.go:124-126 | the name of the head of the queue; requires a non-empty queue |
| Provision.ClusterProvision.PopStep | internal/provision/provision.go:128-136 | an empty queue gives "Provision Complete" without change; otherwise the head's name, and exactly the head is removed |
| Provision.ClusterProvision.UpdateProvisionProgress | internal/provision/provision.go:138-175 | the error and the new queue are those `Update` gives for the old queue and the record the lookup returned |
| Provision.Update | internal/provision/provision.go:138-175 | not found: nil and no change; another lookup error: the message as written, naming the cluster record the failed lookup returned; status "error": always an error with the last condition, queue unchanged; otherwise the head is popped exactly when its mapped check is true, at most one step per call |
| Provision.RetrievalErrorNames | internal/provision/provision.go:145-146 | the corrected message contains the quoted requested name and the client's error |
| Provision.RetrievalErrorAsWrittenNamesNobody | internal/provision/provision.go:145-146 | with the zero record Go returns beside an error, the message as written quotes "" and differs from the one naming "test-cluster" |
| Provision.FailedPollIgnoresRequestedName | internal/provision/provision.go:145-146 | a failed lookup gives the same poll whatever cluster was asked for, and with the zero record the message quotes "" |
| Provision.LeadingDoneMeaning | internal/provision/provision.go:170-172 | the leading queue steps `LeadingDone` counts are all complete and the next one is not |
| Provision.LeadingDoneAll | internal/provision/provision.go:170-172 | when every check is true, every step counts as done |
| Provision.RepollAdvances | internal/provision/provision.go:170-172 | k polls of the same healthy record remove min(k, LeadingDone) steps |
| Provision.RepollIsWalk | internal/provision/provision.go:170-172 | each healthy poll pops the head exactly when its check is true, so k polls are k such steps |
| Provision.AllChecksCompleteQueue | internal/provision/provision.go:170-172 | with every check true the queue empties in exactly as many polls as it has steps |
| Progress.TrueIndices | internal/progress/command.go:43-98 | the positions of the true checks, strictly increasing, each a true check, and every true check listed |
| Progress.TrueIndicesCount | internal/progress/command.go:43-98 | there are exactly as many listed positions as true checks, never more than the checks |
| Progress.BuildCompletedSteps | internal/progress/command.go:40-101 | the completed list is the labels of exactly the true checks in install order; its length is the number of true checks, at most 14; the next step is the label after the last true check; a true users-terraform check gives "Wrapping up"; all false gives an empty list and "" |
| Progress.Summarize | internal/progress/command.go:43-98 | the loop over the checks: the labels at the true positions, and the label after the last true one ("" when none) |
| ProgressPrinter.Package.GetInstance | internal/progressPrinter/progress.go:44-53 | the first call creates an empty printer; every later call returns that same instance |
| ProgressPrinter.Printer.CreateTracker | internal/progressPrinter/progress.go:95-104 | a new tracker with the given title and total, at value 0, appended to the writer |
| ProgressPrinter.Printer.AddTracker | internal/progressPrinter/progress.go:121-124 | returns the key; a new tracker is registered under it, replacing an earlier one, and is appended to the writer, which gains exactly that tracker; other keys keep their trackers; the count grows by one only for a new key |
| ProgressPrinter.Printer.TotalOfTrackers | internal/progressPrinter/progress.go:127-129 | the number of distinct registered keys |
| ProgressPrinter.Printer.IncrementTracker | internal/progressPrinter/progress.go:131-138 | the named tracker advances by exactly 1 whatever value is passed, keeping its message and total; every other tracker keeps its count; the key must be registered |
| ProgressPrinter.Tracker.Increment | internal/progressPrinter/progress.go:137 | the tracker's value grows by the delta |
| FlagsetCommon.GetFlagVarName | internal/flagset/common.go:86-91 | "KUBEFIRST_" followed by the flag upper-cased, each "-" turned into "_", position by position; the result always starts with "KUBEFIRST_" and holds no "-" |
| FlagsetCommon.GetFlagVarNameExamples | internal/flagset/common_test.go:21-33 | "sample", "sample-01" and "sample-01-ab" give the variable names of the package's test table |
| FlagsetCommon.GetConfig | internal/flagset/common.go:93-95 | the key is "config." followed by the flag, which it gives back after the prefix |
| FlagsetCommon.DefineSource | internal/flagset/common.go:55-82 | a set config key gives CONFIG; otherwise a flag changed on the command line gives FLAG; otherwise a present environment variable gives ENV; otherwise NONE; each as an if-and-only-if |
| FlagsetCommon.EmptyEnvSelectsEnv | internal/flagset/common.go:74-78 | a present but empty environment variable still selects ENV, and reads as "" |
| FlagsetCommon.GetString | internal/flagset/common.go:29-30 | pflag's GetString: the flag's string value; an undefined flag or one of another type is an error |
| FlagsetCommon.GetBool | internal/flagset/common.go:50-51 | pflag's GetBool: the flag's bool value; an undefined flag or one of another type is an error |
| FlagsetCommon.GetStringSlice | internal/flagset/common.go:34-35 | pflag's GetStringSlice: the flag's list; an undefined flag or one of another type is an error |
| FlagsetCommon.ReadConfigString | internal/flagset/common.go:21-31 | CONFIG reads the config value, ENV the environment value, and otherwise the flag's value, which is its default when unset; only the flag read can fail |
| FlagsetCommon.ReadConfigBool | internal/flagset/common.go:41-52 | CONFIG reads the config bool; ENV parses the environment value as a bool and passes its error on; otherwise the flag's bool |
| FlagsetCommon.ReadConfigStringSlice | internal/flagset/common.go:33-36 | the flag's list, whatever the config file or the environment hold |
| FlagsetCommon.StringSliceIgnoresConfigAndEnv | internal/flagset/common.go:33-36 | changing the config file or the environment does not change what ReadConfigStringSlice reads |
| FlagsetAws.ValidateAwsFlags | internal/flagset/aws.go:119-156 | a cloud other than aws passes unchecked; then, in order, an empty hosted zone, an empty region, neither ARN nor profile, both ARN and profile, and gitlab with Graviton nodes are errors, each in order; every rule but the last is stated as an if-and-only-if on the rules before it, and the Graviton error is completed to one by ValidateAwsFlagsAccepts |
| FlagsetAws.ValidateAwsFlagsAccepts | internal/flagset/aws.go:119-156 | the validation passes exactly when the cloud is not aws, or there is a hosted zone, a region, exactly one of ARN and profile, and not gitlab with Graviton |
| FlagsetAws.ValidateAwsFlagsExamples | internal/flagset/init_test.go:136-235 | the package's init tests: profile alone and role alone pass; both fail; no hosted zone fails; no region fails |
| FlagsetInstaller.ValidateInstallationFlags | internal/flagset/installer.go:213-234 | an empty cloud is the error, reported first; the short-password error holds exactly for a non-empty bot password of under 8 UTF-8 bytes (Go's `len`) with gitlab; 8 or more characters, an empty password or another provider never give it |
| FlagsetInstaller.BotPasswordBytes | internal/flagset/installer.go:228-231 | five two-byte characters (ten bytes) pass the length test with gitlab, five ASCII characters fail it |
| FlagsetInstaller.ExperimentalModeTweaks | internal/flagset/installer.go:187-210 | the gitops branch becomes "main" exactly when experimental mode is on, the version is empty and the branch is empty; the metaphor branch by the same rule on its own; no other field changes |
| FlagsetInstaller.ExperimentalModeTweaksIdempotent | internal/flagset/installer.go:187-210 | applying the tweaks twice gives what applying them once gives |
| FlagsetInstaller.ExperimentalModeTweaksFillBranches | internal/flagset/installer.go:187-210 | in experimental mode with no version neither branch is left empty |
| FlagsetInstaller.SelectAddons | internal/flagset/installer.go:151-167 | the registry gains the requested addons in order, then the cloud's mandatory addon |
| FlagsetInstaller.MandatoryAddons | internal/flagset/installer.go:160-167 | "cloud" exactly for aws, "k3d" exactly for k3d, nothing else |
| FlagsetInstaller.ReadStrings | internal/flagset/installer.go:63-140 | each string read succeeds in turn and gives its value, or the result is the error of the first read that fails, every read before it succeeding |
| FlagsetInstaller.Assemble | internal/flagset/installer.go:63-140 | the corrected record: every read lands in its own field, gitops-repo in RepoGitops and gitops-owner in OrgGitops |
| FlagsetInstaller.AssembleAsWritten | internal/flagset/installer.go:63-140 | the record as the code fills it: each read in its own field except that RepoGitops holds the gitops owner read and OrgGitops stays empty |
| FlagsetInstaller.AssembleAsWrittenLosesRepo | internal/flagset/installer.go:118-132 | with the default values "gitops" and "kubefirst", the record as written holds RepoGitops "kubefirst" and no owner, the corrected one RepoGitops "gitops" and OrgGitops "kubefirst" |
| FlagsetInstaller.ProcessInstallerGenericFlags | internal/flagset/installer.go:54-185 | the result is Ok exactly when every string read, the skip-metaphor, addons and experimental-mode reads succeed and validation passes; each failing read returns its own error, stopping there (strings, skip-metaphor, addons, experimental mode, in that order), and a validation failure returns its message, the missing cloud among them; on success the record is the one the code builds, with the gitops owner read in RepoGitops and OrgGitops empty, tweaked as the code tweaks it, and the addons are the registry, the requested ones and the mandatory one |
| FlagsetDestroy.ProcessDestroyFlags | internal/flagset/destroy.go:32-80 | no error exactly when all six reads succeed and keep-base is not set without delete, and then every field holds its read; a failed skip-flag read returns that read's error beside the fields assigned so far (a failed skip-base read: the three earlier skip values); a failed hosted-zone read returns that read's error beside the empty record, as does keep-base without delete with its message; only a failed skip read leaves a non-empty record beside an error |
| FlagsetDestroy.HostedZoneFlagsTable | internal/flagset/destroy.go:72-74 | keep-base needs delete: delete alone, both or neither are allowed, keep-base alone is not |
| FlagsetGithub.DeriveOwner | internal/flagset/github.go:72-79 | an explicit owner is kept; an empty one becomes the org, or the user when there is no org; the owner is empty only when all three are |
| FlagsetGithub.Addons | internal/flagset/github.go:88-94 | one addon: "github" exactly when GitHub is enabled, "gitlab" otherwise |
| FlagsetGithub.ProcessGithubAddCmdFlags | internal/flagset/github.go:35-98 | no error exactly when the four reads succeed and not both user and org are given without a token; both without a token is the token error; every error returns the empty record and writes nothing; on success owner, org, user and host are set, GitHub is enabled exactly when the owner is non-empty, and viper receives owner, enabled and the addon |
| FlagsetGithub.UserAloneEnablesGithub | internal/flagset/github.go:53-94 | a user alone needs no token, becomes the owner, enables GitHub and selects the "github" addon |
| CmdFlags.ProcessGithubAddCmdFlags | cmd/commonFlags.go:36-75 | the first failed read of user, org, owner and host is returned; otherwise org, user and host are copied and the owner is the explicit one, else the org, else the user |
| CmdFlags.OwnerAgreesWithFlagset | cmd/commonFlags.go:62-70 | for the same reads, the command's owner is the one the flagset version derives |
| CmdFlags.ProcessGlobalFlags | cmd/commonFlags.go:82-101 | dry-run and use-telemetry are copied unchanged, or the first failed read is returned |
| Template.Seq | pkg/template.go:33-39 | the integers from start to end inclusive, increasing by one; empty when start is above end |
| Template.Indent | pkg/template.go:46-49 | the pad in front and after every newline, which is the lines joined by a newline and the pad; the length grows by the pad once per line |
| Template.NIndent | pkg/template.go:50-52 | a newline followed by the indented text |
| Template.IndentSingleLine | pkg/template.go:46-49 | a text without newlines is only prefixed by the pad |
| Template.NonNil | pkg/template.go:98-106 | no nils, and every non-nil value as often as in the input |
| Template.NonNilNoNil | pkg/template.go:98-106 | a list without nils is kept as it is |
| Template.RemoveNilElements | pkg/template.go:98-106 | the loop keeps exactly the non-nil arguments, in order |
| Template.Concat | pkg/template.go:92-96 | the `%v` forms of the non-nil arguments run together with every space removed, the spaces inside the arguments included; no space remains |
| Template.Dfault | pkg/template.go:120-126 | no given value, or an empty first one, gives the default; otherwise the first given value |
| Template.Diff | pkg/template.go:182-225 | exactly the elements of the first list missing from the second, in order, no more of them than the first list holds |
| Template.ScanFor | pkg/template.go:184-191 | the inner loop ends with `found` true exactly when the element is in a non-empty list; an empty list leaves the flag as it was |
| Template.AppendMissing | pkg/template.go:183-195 | the outer loop appends exactly the elements missing from the other list |
| Template.UniqueSlice | pkg/template.go:164-227 | equal lengths give the elements of each list missing from the other, first list first; unequal lengths give the elements of the longer list missing from the shorter one only |
| Template.LeftUniqueSlice | pkg/template.go:229-279 | equal lengths give the elements of the second list missing from the first; unequal lengths as uniqueSlice |
| Template.UniqueSliceSymmetric | pkg/template.go:182-209 | for equal lengths an element is listed exactly when it is in one list and not the other |
| Template.Replace | pkg/template.go:324-326 | every occurrence replaced: the text split on the old text and joined by the new one, its length changing by the difference per occurrence; text without it is unchanged |
| Template.Base64Encode | pkg/template.go:116-118 | the standard encoding, four characters per three bytes rounded up |
| Template.Base64Decode | pkg/template.go:108-114 | the decoded bytes, or the text of the decoder's error in their place |
| Template.Base64RoundTrip | pkg/template.go:108-118 | decoding what was encoded gives back the bytes |
| Base64.DecodeEncode | pkg/template.go:108-118 | encoding/base64's standard decoder accepts every standard encoding and gives back the bytes |
| Base64.Rfc4648Vectors | pkg/template.go:116-118 | the test vectors of section 10 of RFC 4648: "", "f", "fo", "foo" |
| Base64.DecodeEdgeCases | pkg/template.go:108-114 | missing padding and data after padding are errors; unused trailing bits and newlines are accepted |
| Base64.Encode | pkg/template.go:116-118 | four characters for every three bytes, the last group rounded up |
| Helpers.HostKeepsLastTwo | pkg/helpers.go:161-164 | joining the last two labels with a space and turning spaces into dots keeps exactly those two labels |
| Helpers.RemoveSubdomainV2 | pkg/helpers.go:41-52 | trailing dots dropped, then exactly the last two labels kept: splitting the result on "." gives them back; needs at least two labels, where the code indexes out of range otherwise |
| Helpers.IsValidURL | pkg/helpers.go:179-190 | the empty URL is the "rawURL cannot be empty string" error; otherwise no error exactly when the parser accepts it |
| Helpers.WithScheme | pkg/helpers.go:139-141 | a URL starting with "http" is kept, any other gets "https://" in front; the result always starts with "http" |
| Helpers.StrippedHost | pkg/helpers.go:161-164 | for two labels without spaces, the host built is the last two labels joined by "." |
| Helpers.RemoveSubDomain | pkg/helpers.go:136-176 | a failed parse of the URL with its scheme is that URL's "is invalid, error = …" error; a host of fewer than two labels is "the fullURL (…) is invalid"; a failed parse of the rebuilt URL is its own "is invalid" error; the result is Ok exactly when both parses succeed and the host has two or more labels, and then it is the last two labels joined by "." (for labels without spaces) |
| Helpers.SingleLabelHostIsError | pkg/helpers.go:155-159 | a host without a dot, as in the package's tests, is an error |
| Helpers.SubdomainRemoved | pkg/helpers.go:155-175 | any host of two or more labels without dots or spaces becomes its last two labels joined by "." |
| Helpers.TwoSubdomainsRemoved | pkg/helpers_test.go:39-44 | as in the test case hub.hub.example.com, a host of four labels keeps only its last two |
| Helpers.TwoLabelHostKept | pkg/helpers_test.go:45-50 | the test case x.xyz is kept whole |
| Helpers.FindStringInSlice | pkg/helpers.go:506-514 | true exactly when the string is in the slice |
| Helpers.StringWithCharset | pkg/helpers.go:123-129 | `length` characters, each the charset's character at the next random draw, so each in the charset |
| Helpers.RandSeq | pkg/helpers.go:104-111 | n characters, each an ASCII letter, lower or upper case |
| Helpers.GenerateClusterID | pkg/helpers.go:131-133 | six characters, each a lower-case letter or a digit |
| GitlabAuth.VerifyTokenPermissions | internal/gitlab/auth.go:36-94 | a failed request or read returns its error; a status other than 200 is the status error with the quoted body; a decode failure returns its error; a token with "api" passes; otherwise it passes exactly when no required scope is missing, and else the missing scopes, in the required order, are reported |
| GitlabAuth.AllRequiredScopesPass | internal/gitlab/auth.go:80-91 | nothing is missing exactly when the token holds every required scope, whatever else it holds |
| GitlabAuth.ExtraScopesNeverHurt | internal/gitlab/auth.go:80-86 | adding scopes to a token never adds to what is missing |
| Catalog.FirstMatch | internal/catalog/catalog.go:77-78 | the position found is that of the first catalog entry with the name, and none means no entry has it |
| Catalog.FirstUnset | internal/catalog/catalog.go:81-85 | the position found is the first key whose variable reads empty, and none means every variable is set |
| Catalog.Filled | internal/catalog/catalog.go:87-88 | every key keeps its name and variable and gets the variable's value |
| Catalog.ResolveMeaning | internal/catalog/catalog.go:74-109 | one item succeeds exactly when the catalog has it and every variable of its first entry is set, giving that entry with all keys filled; "not supported" exactly when no entry has the name; an "environment variable is not set" error names a variable that reads empty |
| Catalog.ValidateAllMeaning | internal/catalog/catalog.go:72-112 | the whole list succeeds exactly when every item resolves, and then the result has one filled entry per item, in order, duplicates included |
| Catalog.FailureStops | internal/catalog/catalog.go:84-108 | the first failing item's error is the error of the whole list; later items are not looked at |
| Catalog.FillKeys | internal/catalog/catalog.go:81-99 | the key loop stops at the first unset variable and reports it, and otherwise returns every key filled |
| Catalog.ResolveItem | internal/catalog/catalog.go:77-109 | the inner loop over the catalog gives exactly the single-item resolution: the first entry of the name filled, its first unset variable, or "not supported" |
| Catalog.ValidateCatalogApps | internal/catalog/catalog.go:61-113 | an empty list succeeds with nothing, before the catalog is read; a catalog read error is returned; otherwise the nested loops compute the list resolution of the comma-separated items |
| Reset.ParseConfigEntryKubefirstChecks | cmd/reset.go:81-95 | a nil map is the "checks configuration is nil" error with an empty result; otherwise the result has exactly the input's keys, each true exactly when its text parses as boolean true |
| Reset.TerraformApplyKey | cmd/reset.go:52-58 | the key is "terraform-apply-" followed by the provider |
| Reset.ResetGate | cmd/reset.go:28-71 | the type switch decides as the gate over the raw entry, with a failed parse treated as no checks on |
| Reset.GateRunsReset | cmd/reset.go:33-70 | reset runs exactly for an empty string or a map with neither provider's terraform-apply check on; the git provider's check is reported first; a nil entry, and only that, reports success without resetting |
| Reset.CheckSpellings | cmd/reset.go:88-91 | "true", "1" and "True" count as on; "false", "yes" and "" count as off |
| Vault.KeyName | internal/vault/exec.go:280 | the i-th key's name is "root-unseal-key-" followed by i in decimal |
| Vault.KeyNameInjective | internal/vault/exec.go:279-281 | distinct key numbers give distinct names, so no stored key overwrites another |
| Vault.RootTokenKeyNotSelected | internal/vault/exec.go:114-122 | "root-token" is never taken for an unseal key |
| Vault.KeyNameSelected | internal/vault/exec.go:113-117 | every key name written at lines 279-281 contains "root-unseal-key-", so the read loop picks it up |
| Vault.SecretDataContents | internal/vault/exec.go:277-281 | the secret holds exactly "root-token" with the root token and one numbered entry per key with that key, counting from 1 |
| Vault.BuildSecretData | internal/vault/exec.go:277-281 | the loop fills the map with exactly that content |
| Vault.VaultInitAsWritten | internal/vault/exec.go:227-298 | the request asks for 5 shares and threshold 3; a failed exchange or decode is returned as the error; a non-200 answer writes nothing yet reports no error; a decoded answer is returned and its secret written |
| Vault.VaultInit | internal/vault/exec.go:227-298 | as written, except that a non-200 answer is an error with the logged text; no error exactly when the answer is 200 and decodes, and only then is the secret written |
| Vault.SelectedPermutation | internal/vault/exec.go:113-117 | the values picked from the secret are the same multiset whatever order its keys are visited in |
| Vault.FetchVaultExistingSecretData | internal/vault/exec.go:104-126 | a failed read gives an empty response and no error; otherwise every key is visited once, the values of keys containing "root-unseal-key-" are collected in visiting order, and the root token is the "root-token" value or "" |
| Vault.WriteOrder | internal/vault/exec.go:278-281 | the write order starts with "root-token" and then lists the numbered keys from 1 |
| Vault.WriteOrderCounts | internal/vault/exec.go:278-281 | the write order names no key twice |
| Vault.WriteOrderKeys | internal/vault/exec.go:278-281 | the write order lists exactly the keys of the written secret |
| Vault.WriteOrderSelects | internal/vault/exec.go:113-117 | reading the secret that lines 277-281 write back in its write order gives every key in its original order |
| Vault.FetchAfterInit | internal/vault/exec.go:112-123 | reading back (lines 277-281) the secret vaultInit writes gives the same root token and the same keys, counted with multiplicity, for any visiting order |
| Vault.FirstStop | internal/vault/exec.go:305-311 | the position found is the first transaction that is done or failed, and none means every transaction was neither |
| Vault.VaultUnseal | internal/vault/exec.go:301-314 | the keys are submitted in order up to and including the first transaction that is done or failed, whose error is returned; with no such transaction every key is submitted and nil returned |
| Vault.FirstStopAt | internal/vault/exec.go:305-311 | a transaction that stops, preceded by none that does, is the first stop |
| Vault.RaftFollowerCommands | internal/vault/exec.go:58-93 | the follower loop issues, for each pod from 1 to Nodes-1, a raft join followed by the unseal of at most the first three keys |
| Vault.PodCommands | internal/vault/exec.go:60-92 | one pod gets its join and then the unseal of the first three keys, in order, the loop breaking at the fourth |
| Vault.FirstThree | internal/vault/exec.go:74-90 | the keys passed are the first three, or all of them when there are fewer |
| Vault.FollowerPlanBounds | internal/vault/exec.go:58-93 | every command goes to a pod from 1 to Nodes-1, every such pod is joined, and no key past the third is ever passed |
| Vault.UnsealVaultAction | internal/vault/exec.go:43-100 | the leader is unsealed exactly for HA raft with the leader flag; followers are joined exactly for HA raft with only the follower flag; an HA type other than raft exits |
| Detokenize.ReplaceChainSnoc | internal/k3d/detokenize.go:53-81 | one more replacement in the chain is a replace-all applied to the text the chain produced so far |
| Detokenize.ReplaceChainAppend | internal/k3d/detokenize.go:53-81 | running two runs of replacements one after the other is running them as one chain |
| Detokenize.ReplaceChainAbsent | internal/k3d/detokenize.go:53-81 | a file in which no token occurs is written back unchanged |
| Detokenize.ReplaceAllWhole | internal/k3d/detokenize.go:54 | a text that is exactly the token becomes exactly the value |
| Detokenize.ValueRewrittenByLaterToken | internal/k3d/detokenize.go:53-81 | the replacements are sequential: a value that is itself a later token is rewritten by that later replacement |
| Detokenize.ReplaceChainStep | internal/k3d/detokenize.go:53-81 | each step splits the text so far at its token and joins the pieces with its value |
| Detokenize.Zip | internal/k3d/detokenize.go:54-81 | the replacements pair each token with the value at its position |
| Detokenize.GitopsSubs | internal/k3d/detokenize.go:54-81 | the gitops pass has 28 replacements in source order, with the fixed alerts e-mail, the kubefirst.dev domain for both domain tokens, the lower-cased GitHub owner and the GitLab group id in decimal |
| Detokenize.MetaphorSubs | internal/k3d/detokenize.go:171-178 | the metaphor pass has its 7 replacements in source order, the domain being the given one |
| Detokenize.PostRunSubs | internal/k3d/detokenize.go:126-127 | the post-run pass has the one replacement of "https://minio.kubefirst.dev" by the in-cluster MinIO address |
| Detokenize.PostRunIsOneReplace | internal/k3d/detokenize.go:126-127 | the post-run pass is a single replace-all of that address |
| Detokenize.DetokenizeContents | internal/k3d/detokenize.go:53-81 | the successive reassignments of the contents compute the chain of replacements |
| Detokenize.FirstError | internal/k3d/detokenize.go:32-90 | the position found is the first visit that fails, and none means no visit fails |
| Detokenize.FirstErrorAt | internal/k3d/detokenize.go:32-90 | a failing visit preceded by none is the first failure |
| Detokenize.WritesSkipDirsAndGit | internal/k3d/detokenize.go:37-46 | only files that are not directories and not under "/.git/" are written, each with its own text detokenised |
| Detokenize.DetokenizeWalk | internal/k3d/detokenize.go:21-91 | the walk rewrites files in walk order; a walk, read or write error stops it and is returned, with the writes done up to then |
| Detokenize.DetokenizeGitGitops | internal/k3d/detokenize.go:21-91 | the gitops walk with the gitops replacements: it writes every file detokenised or returns the first error |
| Detokenize.PostRunDetokenizeGitGitops | internal/k3d/detokenize.go:94-136 | the post-run walk with the MinIO replacement: it writes every file rewritten or returns the first error |
| Detokenize.DetokenizeGitMetaphor | internal/k3d/detokenize.go:139-188 | the metaphor walk with the metaphor replacements: it writes every file detokenised or returns the first error |
| Credentials.PlatformHint | internal/credentials/root-credentials.go:31-36 | the hint is "beta " and the provider for a beta provider, else the provider itself |
| Credentials.EvalAuth | internal/credentials/root-credentials.go:28-55 | an unfinished setup is the "no active kubefirst platforms" error with the hint; a missing cloud or git provider is the parse error; another recorded cloud is the "current deployed platform" error; true with no error exactly when none of these holds |
| Credentials.GitProviderNotCompared | internal/credentials/root-credentials.go:45-50 | the recorded git provider is only checked for being present, never against the expected one; success is exactly a finished setup on the expected, non-empty cloud |
| Credentials.ParamsContents | internal/credentials/root-credentials.go:131-143 | the report holds each credential that is not empty under its label, and nothing else |
| Credentials.BuildParams | internal/credentials/root-credentials.go:131-143 | the map built key by key is exactly those parameters |
| Credentials.PrintAuthData | internal/credentials/root-credentials.go:163-179 | the framed header, the no-credentials notice when there are no parameters, then one line per parameter in the map's visiting order |
| Credentials.LinesSnoc | internal/credentials/root-credentials.go:173-175 | each visited parameter adds its line at the end |
| Credentials.LinesContain | internal/credentials/root-credentials.go:173-175 | every visited parameter's line is in the text |
| Credentials.AuthTextContents | internal/credentials/root-credentials.go:163-179 | every parameter appears as "label: value", and the no-credentials notice appears when there are none |
| Credentials.VisitOrderShows | internal/credentials/root-credentials.go:145-173 | two labels with different first letters give different reports depending on which is visited first, so the output follows map order |
| Credentials.PrintAuthDataSorted | internal/credentials/root-credentials.go:145-156 | the report lists its lines in sorted label order, the same text for any visiting order |
| Credentials.SortKeepsKeys | internal/credentials/root-credentials.go:146-150 | sorting the collected keys keeps exactly the parameters' labels |
| Credentials.ParseAuthData | internal/credentials/root-credentials.go:58-160 | each clipboard option, in priority order, yields that credential: the Argo CD password, the kbot password (or the wait notice when Vault does not resolve), the Vault root token (or the "does not exist" notice when empty); with no option, the report of the non-empty credentials printed in a visiting order of the map (each key once), the root token typed in when the secret has none and Vault resolves |
| Credentials.ReportCredentials | internal/credentials/root-credentials.go:129-157 | the report under the cloud's header lists the non-empty credentials in an order that visits each key of the map once; the sorted key list is not used |
| Credentials.ReadCredentials | internal/credentials/root-credentials.go:59-98 | the Argo CD password from its secret; the root token from the Vault secret, or the typed one when that has none and Vault resolves; the kbot password from Vault, or the wait notice when Vault does not resolve |
| Log.ShortFile | pkg/log.go:36-43 | the file part is what follows the last "/" above index 0, and holds no "/" itself; the whole path is kept exactly when it has no "/" past its first character |
| Log.ShortenFile | pkg/log.go:36-42 | the backwards scan with its break computes that file part |
| Log.PackagePath | pkg/log.go:45-49 | the package path has the length of the prefix before the last "."; with more than one "." every "." becomes "/", otherwise the prefix is kept as it is |
| Log.ShortCallerMarshal | pkg/log.go:35-53 | the caller text is the package part, "/", the file part, ":" and the line number |
| Log.CallerTextParts | pkg/log.go:50-52 | the text starts with the package part, has "/" and the file part in the middle, and ends with ":" and the decimal line number |
| Log.ShortPackageSegments | pkg/log.go:50-51 | the package part keeps exactly the path segments after the third |
| Log.GetLogLevelByString | pkg/log.go:63-76 | a known name gives its level; any other name gives the debug level, the map's zero value; the level lies between trace and panic |
| Log.LevelNames | pkg/log.go:55-74 | debug is returned exactly for "debug" and unknown names; no two names share a level; "warn", named in the doc comment, gives debug while "warning" gives warn |
| GitlabCloud.StopAt | internal/gitlabcloud/gitlab.go:64-79 | the position found is the first answer that is an error or has no next page, and none means the listing would never end |
| GitlabCloud.PagesMember | internal/gitlabcloud/gitlab.go:75-77 | an item is in the container exactly when it was on one of the pages read |
| GitlabCloud.CollectPages | internal/gitlabcloud/gitlab.go:60-81 | a listing (the same loop at lines 84-105 and 138-159) starts at page 1 and then asks for each answer's next page; the first failed request is returned, and otherwise every page's items in order up to the page without a next one |
| GitlabCloud.CollectedIgnoresLaterAnswers | internal/gitlabcloud/gitlab.go:64-79 | answers after the one that ends the loop are never read |
| GitlabCloud.PagesPrefix | internal/gitlabcloud/gitlab.go:75-77 | the container built from the pages read does not depend on later answers |
| GitlabCloud.FirstNamed | internal/gitlabcloud/gitlab.go:51-55 | the position found (the same search at lines 129-133) is the first group with the name, and none means no group has it |
| GitlabCloud.GetGroupID | internal/gitlabcloud/gitlab.go:50-57 | the ID of the first group with exactly the name, else 0 and "group NAME not found" |
| GitlabCloud.GetSubGroupID | internal/gitlabcloud/gitlab.go:108-135 | a failed page request is returned with ID 0; otherwise the ID of the first listed subgroup with the name, else 0 and "subgroup NAME not found" |
| GitlabCloud.SubGroupFound | internal/gitlabcloud/gitlab.go:112-133 | a subgroup is found exactly when one of the pages read holds a subgroup with that name |
| GitlabCloud.FindProjectInGroup | internal/gitlabcloud/gitlab.go:162-169 | true exactly when some project has the name; otherwise false and "project NAME not found" |
| Quota.BandOf | cmd/civo/quota.go:114-128 | a percentage strictly between 80 and 90 warns, one above 90 fails, and the rest, exactly 90 included, is healthy |
| Quota.FormatQuotaOutputParts | cmd/civo/quota.go:140-147 | a line starts with the usage field's name and " - " and ends with the bracketed percentage |
| Quota.LinesSnoc | cmd/civo/quota.go:114-128 | visiting one more field appends its line exactly when it is listed |
| Quota.AddToBand | cmd/civo/quota.go:116-120 | visiting one more field adds one to a band's count exactly when the field falls in that band |
| Quota.AddToListed | cmd/civo/quota.go:117-126 | visiting one more field adds one to the listed count exactly when it is listed |
| Quota.VisitOne | cmd/civo/quota.go:102-129 | one turn of the loop keeps the lines and both counters equal to those of the fields visited so far |
| Quota.CheckField | cmd/civo/quota.go:104-128 | one field's switch: a warning adds to the warnings and a line, a failure to the failures and a line, a healthy field a line only with --show-all |
| Quota.VisitedAll | cmd/civo/quota.go:102 | after the loop every limit field was visited exactly once |
| Quota.EvaluateFields | cmd/civo/quota.go:98-129 | the loop visits every limit field once, in map order; the failure and warning counters are the numbers of fields in those bands, and the lines are those of the listed fields in visiting order |
| Quota.PrintCivoQuotaWarning | cmd/civo/quota.go:150-168 | the framed header, one line per output entry, the all-healthy note when there is none, the advice and the link |
| Quota.BodyContainsLines | cmd/civo/quota.go:156-158 | every output entry is in the body, followed by a newline |
| Quota.TrailerParts | cmd/civo/quota.go:159-163 | the trailer ends with the quota-increase link and starts with the all-healthy note when there is no output |
| Quota.ReportEndsWithLink | cmd/civo/quota.go:163 | the report always ends with the quota-increase link |
| Quota.ReportSaysHealthy | cmd/civo/quota.go:159-161 | with nothing to list the report says all quotas are healthy |
| Quota.ReportListsLines | cmd/civo/quota.go:156-158 | the report lists every output entry on its own line |
| Quota.ReturnCivoQuotaEvaluation | cmd/civo/quota.go:67-137 | a failed fetch or decode returns "", 0, 0 and its error; otherwise the counters count the failing and warning fields and the report holds the listed lines sorted |
| Quota.BandCounts | cmd/civo/quota.go:114-122 | a field lands in at most one band, so warnings and failures together never exceed the number of fields |
| Quota.ListedCounts | cmd/civo/quota.go:114-128 | without --show-all there is one line per warning or failing field, and with it one line per field |
| Quota.LinesAppend | cmd/civo/quota.go:102-129 | visiting two runs of fields one after the other gives their lines one after the other |
| Quota.LinesRemove | cmd/civo/quota.go:102-129 | taking one field out of a visiting order takes out just its line |
| Quota.LinesCount | cmd/civo/quota.go:117-126 | visiting each field once gives as many lines as there are listed fields |
| Quota.LinesPermutation | cmd/civo/quota.go:102-129 | two visiting orders with the same fields give the same lines up to order |
| Quota.ReportIgnoresVisitOrder | cmd/civo/quota.go:133-134 | because the lines are sorted, the report is the same whatever order the map is visited in |
| K8sClient.DefaultKubeConfig | internal/k8s/client.go:99 | the default path is ".kube/config" under the home directory, with no doubled separator, or ".kube/config" alone for an empty home |
| K8sClient.ReturnKubeConfigPath | internal/k8s/client.go:86-103 | an explicit path wins, then a non-empty KUBECONFIG, then the default path; the result is never empty |
| K8sClient.CreateKubeConfig | internal/k8s/client.go:32-83 | an in-cluster client records "in-cluster" whatever path is given; any other records the chosen path |
| K8sClient.ExplicitPathWins | internal/k8s/client.go:86-91 | once a path is given neither the environment nor the home directory matters |
| K3dCreate.CheckOwnerFlags | cmd/k3d/create.go:152-155 | an error, "only one of --github-user or --github-org can be supplied", exactly when both flags are set |
| K3dCreate.GithubOwner | cmd/k3d/create.go:231-238 | the owner is the organization flag when set, and otherwise the authenticated GitHub user, whatever the user flag holds |
| K3dCreate.ResolveOwner | cmd/k3d/create.go:195-285 | GitHub: a failed scope check or user lookup is its error, otherwise github.com and the owner rule; GitLab: no group flag, no GITLAB_TOKEN, a failed scope check or client creation is the matching error, a failed user lookup is that error after "unable to get authenticated user info - please make sure GITLAB_TOKEN env var is set ", otherwise gitlab.com and the parent group's path; any other provider leaves host and owner empty; an error exactly when some step of the chosen provider fails |
| K3dCreate.OtherProviderAnswersIgnored | cmd/k3d/create.go:195-285 | the owner depends only on the answers of the chosen provider's calls |
| K3dCreate.DescribeDestination | cmd/k3d/create.go:287-302 | for GitHub the descriptor is "Organization" exactly when only the organization flag is set, and "User" otherwise; GitLab is "Group"; any other provider has none |
| K3dCreate.ResolveBranch | cmd/k3d/create.go:350-372 | a given branch is kept; an error exactly outside the development version with no branch and a URL that is neither default form; in development an empty branch becomes "main" only for a URL containing the default; otherwise the default URL's branch is the version |
| K3dCreate.EmptyBranchOnlyInDevelopment | cmd/k3d/create.go:350-372 | an empty branch comes back only when none was given and either the development version saw a non-default URL or the version itself is empty |
| K3dCreate.DevelopmentAcceptsLongerURL | cmd/k3d/create.go:354-356 | in development any URL containing the default template URL gets "main" |
| K3dCreate.HttpsRepoURL | internal/k3d/config.go:91 | "https://", the host, "/", the owner and "/gitops.git" |
| K3dCreate.GitRepoURL | internal/k3d/config.go:92 | "git@", the host, ":", the owner and "/gitops.git" |
| K3dCreate.RepoURLsDetermineOwner | internal/k3d/config.go:91-92 | for one host each URL form determines the owner, and the two forms never coincide |
| K3dCreate.GitopsRepoURL | cmd/k3d/create.go:480-486 | the https form exactly for the "https" protocol, the git form otherwise |
| K3dCreate.RunK3dRules | cmd/k3d/create.go:152-486 | the rules run in order and the first failure is returned; the plan exists exactly when the owner flags are not both set, every step of the provider switch succeeds and the branch resolves, and then holds the host, owner, descriptor, branch and remote those rules give |
| K3dCreate.GithubDescriptorMatchesOwner | cmd/k3d/create.go:231-299 | for GitHub the destination is described as an organization exactly when the organization is the owner, and as a user otherwise |
| S3.SelectedConstraint | internal/aws/s3.go:29-37 | the region when it is a valid constraint; "us-east-1" when the list is not empty but lacks it; "" when the list is empty |
| S3.LocationConstraint | internal/aws/s3.go:29-37 | the loop with its break computes that constraint |
| S3.BuildCreateBucketInput | internal/aws/s3.go:39-48 | the request names the bucket and carries a location constraint exactly when the region is not us-east-1, with the selected value |
| S3.ConfiguredConstraint | internal/aws/s3.go:29-48 | outside us-east-1 the region itself is sent exactly when it is a valid constraint, and us-east-1 otherwise |
| S3.CreateBucketResult | internal/aws/s3.go:50-67 | the created bucket exactly when creation and versioning both succeed; either failure is wrapped as "error creating s3 bucket NAME: ERR" |
| Sorting.Sort | cmd/civo/quota.go:133 | sort.Strings gives the sorted permutation of its input |
| Sorting.SortedUnique | cmd/civo/quota.go:133 | a multiset has exactly one sorted arrangement |
| Sorting.SortIgnoresOrder | internal/credentials/root-credentials.go:150 | sorting two arrangements of the same strings gives the same result |

## Left out
- Configuration sources: viper keys, cobra/pflag flags and the process environment are modelled as maps passed in (`FlagsetCommon.Context`); the writes `ProcessAwsFlags` and the GitHub flag set make to viper and to the environment are not modelled.
- `strconv.ParseBool` is modelled concretely (`GoStrings.ParseBool`, with Go's accepted spellings) and used by `FlagsetCommon.ReadConfigBool` and `Reset`; the pflag readers' own parse failures are taken as `Result` inputs.
- I/O and services: HTTP calls to GitLab, Vault and the cluster API, Kubernetes clients and pod exec, git, Terraform, the AWS and Civo SDKs, sleeps and retries. Their answers are inputs (`Result`/`Option` values or sequences of pages), except for the two Vault calls whose failures panic, listed next.
- Vault.VaultInitAsWritten, Vault.VaultInit: the `k8s.CreateSecretV2` write of the unseal secret has no input for its outcome; `written` is the data handed to it, and a failed write, which panics in Go (internal/vault/exec.go:290-293), is not modelled.
- Vault.VaultUnseal: each answer is a decoded `Transaction`; a failure to read or decode the unseal response body, which panics in Go (internal/vault/exec.go:342-351), is not modelled.
- The Vault unseal health loop (internal/vault/exec.go:129-224) polls pods with sleeps and is not part of this model; only the unseal submission loop and the raft-follower plan are.
- `runReset` (cmd/reset.go:98-142) only deletes files and directories and prints, so only the decision that leads to it is modelled.
- The clipboard, standard input (`fmt.Scanln`) and the terminal are left out; values read from them are parameters.
- Randomness: `rand.Intn` draws are a sequence of numbers passed in (`Helpers.RandSeq`, `Helpers.StringWithCharset`); only lengths and alphabets are stated.
- Go map iteration order is unspecified, so it is a parameter (a visit order that is a permutation of the keys) or a ghost order chosen by the loop.
- Quota: the percentage comes from `math.Round` over a float division, so the model takes the rounded percentage per field as an integer input; a limit of 0 makes that division NaN or +Inf in Go, which the integer input does not represent; `%v` of a float is printed as its integer text, while Go prints values of 1e6 and above in exponent form ("1e+06"); the terminal colour codes around the lines are left out; a quota missing one of the checked fields panics in Go and is excluded by the precondition `Readable`.
- `filepath.Join` and `filepath.Clean` are modelled only for `home/.kube/config` (`K8sClient.DefaultKubeConfig`): separators at the end of home are merged, nothing else is cleaned.
- `filepath.Walk` is a sequence of entries handed to the walk; the `filepath.Match("*", name)` test there always matches and is dropped; a rewrite is recorded as written even when the file write fails.
- `strings.Replace(s, ".", "/", strings.Count(s, "."))` is taken as replace-all, which it is since the count equals the number of occurrences (`Log.PackagePath`).
- `%q` quoting in error messages is not escaped (`GoStrings.Quote` only adds the quotes).
- go-pretty: a tracker's stop-at-total behaviour, the progress writer's rendering and the ActionTracker wrapper are left out; a tracker is a message, a total and a value.
- The template helpers' `%v` rendering covers strings, integers and booleans only; values of other Go types are not modelled.
- Base64.Decode: on corrupt input the offset in "illegal base64 data at input byte N" is the index, in the text with every '\r' and '\n' removed, of the first character of the four-character group that fails; Go's `CorruptInputError` is the index in the original input, line breaks counted, of the offending character itself (of the byte after the padding for data after padding), so the two numbers differ whenever the bad character is not first in its group or line breaks precede it.
- Base64 strings are the characters of an ASCII text: `Template.TextBytes` keeps each character's low byte, so non-ASCII text (UTF-8 of more than one byte) is not modelled.
- The paginated GitLab getters (`GetGroups`, `GetProjects`, `GetSubGroups`) are all modelled by `GitlabCloud.CollectPages`, which requires the answers to contain a page with next page 0; an endless listing is not modelled.
- Panics are preconditions: `Log.ShortCallerMarshal` and `Log.PackagePath` need the function name to contain a "." and the package path to have at least three segments, because the code slices `[3:]` (four are not needed for the slice); `Helpers.RemoveSubdomainV2` needs at least two labels; `GetCurrentStep` needs a non-empty queue; `ProgressPrinter.Printer.IncrementTracker` needs the key to be registered, because an unknown key dereferences a nil tracker (internal/progressPrinter/progress.go:137); `Template.Indent` takes a non-negative count.
- `Log.GetLogLevelByString`: the doc comment in the source lists "warn", but the map key is "warning" (pkg/log.go:69), so "warn" falls through to the zero level, debug; the model follows the code.
- k3d: cmd/k3d/create.go:483 reads `DestinationGitopsRepoURL` and calls `k3d.GetConfig` with four arguments (line 325), while internal/k3d/config.go defines `DestinationGitopsRepoHttpsURL` (lines 91-92) and a two-argument `GetConfig`; the URLs are modelled with the format strings of config.go.
- k3d: with a git provider other than github or gitlab the command only logs and carries on with an empty owner, which the model keeps. The answers of the token scope checks, the GitHub user lookup, the GitLab client creation and the GitLab user lookup are `Result`/`Option` inputs (`K3dCreate.GitAnswers`); obtaining the GitHub token (`AuthenticateGitHubUserWrapper`, whose failure is only logged) and the viper writes are not modelled.
- GoStrings.ToUpper, GoStrings.ToLower: only ASCII letters change case, while Go's `strings.ToUpper`/`ToLower` map every Unicode letter; this matters for `FlagsetCommon.GetFlagVarName` and `Detokenize` only on non-ASCII flag names and owners.
- GitlabAuth: internal/gitlab/auth.go:68-72 asserts the token-info answer is a JSON object whose "scopes" is an array of strings and panics otherwise; the model takes the decoded scopes as a list of strings (or the decoding error) and does not model the panic.
- Template.Seq: integers are unbounded, so a range ending at Go's largest `int` (where `i++` wraps and the loop never ends) is not modelled.
- Cloud orchestration around the modelled decisions (cluster creation, downloads, port forwards, watch loops, the bubbletea UI) is outside this model.
- CmdFlags.ProcessGlobalFlags: when reading use-telemetry fails, Go returns the record with `DryRun` already set beside the error; the model returns only the error.
- FlagsetInstaller.ProcessInstallerGenericFlags: on a failure after the addons were registered, the registry keeps them, but the `Err` result does not carry the registry.
- Quota.BandOf: exactly 90 percent is banded healthy, because the failure test is `> 90` and the warning test `< 90`; the model keeps this as written rather than treating it as a defect.

## Findings
| source | as written | input that shows it | evidently intended | confidence | as-written member | corrected member |
|---|---|---|---|---|---|---|
| internal/flagset/installer.go:126-132 | the gitops owner read into `ownerGitOps` is assigned to `RepoGitops`, so the repository name is overwritten and `OrgGitops` is never set | the default flag values, gitops owner "kubefirst" and repo "gitops": the record has `RepoGitops == "kubefirst"` and an empty `OrgGitops` | `OrgGitops` takes the owner and `RepoGitops` keeps the repository name | not executed | FlagsetInstaller.AssembleAsWrittenLosesRepo | FlagsetInstaller.Assemble |
| internal/credentials/root-credentials.go:145-156 | the keys are sorted into `paramsSorted`, but `printAuthData` receives the unsorted `params` map, so the lines follow map order | two credentials visited in the two orders print in two different orders | the credential lines are printed in sorted key order | not executed | Credentials.VisitOrderShows | Credentials.PrintAuthDataSorted |
| internal/provision/provision.go:145-146 | the wrapped lookup error names `provisionedCluster.ClusterName`, which is the empty name of the zero record returned beside the error | a lookup failing with "boom": the message names the cluster "" | the message names the cluster that was asked for | not executed | Provision.RetrievalErrorAsWrittenNamesNobody | Provision.RetrievalErrorNames |
| internal/vault/exec.go:262-269 | a non-200 init response returns `err`, which is nil once reading the body succeeded, so the failure is reported as success with nothing written | an init answer with status 400 and a readable body: no error and no secret | a non-200 answer is an error carrying the status and body | not executed | Vault.VaultInitAsWritten | Vault.VaultInit |
