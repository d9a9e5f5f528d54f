/** The flags of the destroy commands and the hosted-zone rule. */
module FlagsetDestroy {
  import opened Wrappers
  import opened FlagsetCommon

  datatype DestroyFlags = DestroyFlags(
    SkipGitlabTerraform: bool,
    SkipGithubTerraform: bool,
    SkipDeleteRegistryApplication: bool,
    SkipBaseTerraform: bool,
    HostedZoneDelete: bool,
    HostedZoneKeepBase: bool)

  const EmptyDestroyFlags := DestroyFlags(false, false, false, false, false, false)

  const KeepBaseError := "--hosted-zone-keep-base must be used together with --hosted-zone-delete"

  /** A record and an optional error, as the Go function returns them side by side. */
  datatype Outcome = Outcome(flags: DestroyFlags, err: Option<string>)

  /**
   * The six reads ProcessDestroyFlags makes, in order: the four skip flags
   * through ReadConfigBool and the two hosted-zone flags straight from cobra.
   */
  datatype DestroyReads = DestroyReads(
    skipGitlab: Result<bool>, skipGithub: Result<bool>, skipDeleteRegister: Result<bool>,
    skipBase: Result<bool>, hostedZoneDelete: Result<bool>, hostedZoneKeepBase: Result<bool>)

  function ReadDestroyFlags(ctx: Context): DestroyReads {
    DestroyReads(
      ReadConfigBool(ctx, "skip-gitlab-terraform"), ReadConfigBool(ctx, "skip-github-terraform"),
      ReadConfigBool(ctx, "skip-delete-register"), ReadConfigBool(ctx, "skip-base-terraform"),
      GetBool(ctx, "hosted-zone-delete"), GetBool(ctx, "hosted-zone-keep-base"))
  }

  /** The four skip flags were read. */
  predicate SkipFlagsRead(x: DestroyReads) {
    x.skipGitlab.Ok? && x.skipGithub.Ok? && x.skipDeleteRegister.Ok? && x.skipBase.Ok?
  }

  predicate AllRead(x: DestroyReads) {
    SkipFlagsRead(x) && x.hostedZoneDelete.Ok? && x.hostedZoneKeepBase.Ok?
  }

  /**
   * ProcessDestroyFlags, given what ReadDestroyFlags answers. A failed read
   * of a skip flag returns the error with the fields assigned so far; a
   * failed hosted-zone read and the keep-base rule return the empty record.
   * SkipBaseTerraform is assigned last.
   */
  method ProcessDestroyFlags(x: DestroyReads) returns (r: Outcome)
    ensures r.err == None <==>
      AllRead(x) && HostedZoneFlagsAllowed(x.hostedZoneDelete.value, x.hostedZoneKeepBase.value)
    ensures r.err == None ==> r.flags == DestroyFlags(
      x.skipGitlab.value, x.skipGithub.value, x.skipDeleteRegister.value, x.skipBase.value,
      x.hostedZoneDelete.value, x.hostedZoneKeepBase.value)
    ensures x.skipGitlab.Err? ==> r == Outcome(EmptyDestroyFlags, Some(x.skipGitlab.error))
    ensures x.skipGitlab.Ok? && x.skipGithub.Err? ==>
      r == Outcome(EmptyDestroyFlags.(SkipGitlabTerraform := x.skipGitlab.value), Some(x.skipGithub.error))
    ensures x.skipGitlab.Ok? && x.skipGithub.Ok? && x.skipDeleteRegister.Err? ==>
      r == Outcome(EmptyDestroyFlags.(SkipGitlabTerraform := x.skipGitlab.value,
        SkipGithubTerraform := x.skipGithub.value), Some(x.skipDeleteRegister.error))
    ensures x.skipGitlab.Ok? && x.skipGithub.Ok? && x.skipDeleteRegister.Ok? && x.skipBase.Err? ==>
      r == Outcome(EmptyDestroyFlags.(SkipGitlabTerraform := x.skipGitlab.value,
        SkipGithubTerraform := x.skipGithub.value, SkipDeleteRegistryApplication := x.skipDeleteRegister.value),
        Some(x.skipBase.error))
    ensures SkipFlagsRead(x) && x.hostedZoneDelete.Err? ==>
      r == Outcome(EmptyDestroyFlags, Some(x.hostedZoneDelete.error))
    ensures SkipFlagsRead(x) && x.hostedZoneDelete.Ok? && x.hostedZoneKeepBase.Err? ==>
      r == Outcome(EmptyDestroyFlags, Some(x.hostedZoneKeepBase.error))
    ensures AllRead(x) && r.err.Some? ==> r == Outcome(EmptyDestroyFlags, Some(KeepBaseError))
    ensures AllRead(x) && x.hostedZoneKeepBase.value && !x.hostedZoneDelete.value ==>
      r == Outcome(EmptyDestroyFlags, Some(KeepBaseError))
    ensures r.err.Some? && r.flags != EmptyDestroyFlags ==>
      x.skipGithub.Err? || x.skipDeleteRegister.Err? || x.skipBase.Err?
  {
    var flags := EmptyDestroyFlags;
    if x.skipGitlab.Err? {
      return Outcome(flags, Some(x.skipGitlab.error));
    }
    flags := flags.(SkipGitlabTerraform := x.skipGitlab.value);
    if x.skipGithub.Err? {
      return Outcome(flags, Some(x.skipGithub.error));
    }
    flags := flags.(SkipGithubTerraform := x.skipGithub.value);
    if x.skipDeleteRegister.Err? {
      return Outcome(flags, Some(x.skipDeleteRegister.error));
    }
    flags := flags.(SkipDeleteRegistryApplication := x.skipDeleteRegister.value);
    if x.skipBase.Err? {
      return Outcome(flags, Some(x.skipBase.error));
    }
    if x.hostedZoneDelete.Err? {
      return Outcome(EmptyDestroyFlags, Some(x.hostedZoneDelete.error));
    }
    flags := flags.(HostedZoneDelete := x.hostedZoneDelete.value);
    if x.hostedZoneKeepBase.Err? {
      return Outcome(EmptyDestroyFlags, Some(x.hostedZoneKeepBase.error));
    }
    flags := flags.(HostedZoneKeepBase := x.hostedZoneKeepBase.value);
    if flags.HostedZoneKeepBase && !flags.HostedZoneDelete {
      return Outcome(EmptyDestroyFlags, Some(KeepBaseError));
    }
    flags := flags.(SkipBaseTerraform := x.skipBase.value);
    return Outcome(flags, None);
  }

  /** The hosted-zone rule alone: keep-base needs delete; delete alone, or neither, is fine. */
  predicate HostedZoneFlagsAllowed(delete: bool, keepBase: bool) {
    keepBase ==> delete
  }

  lemma HostedZoneFlagsTable()
    ensures HostedZoneFlagsAllowed(true, false) && HostedZoneFlagsAllowed(true, true)
    ensures HostedZoneFlagsAllowed(false, false) && !HostedZoneFlagsAllowed(false, true)
  {
  }
}
