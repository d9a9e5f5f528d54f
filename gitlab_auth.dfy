/** The check that a GitLab token carries the scopes kubefirst needs. */
module GitlabAuth {
  import opened Wrappers
  import opened GoStrings
  import Helpers
  import Template

  const RequiredScopes: seq<string> := [
    "read_api", "read_user", "read_repository", "write_repository", "read_registry", "write_registry"]

  /**
   * What the token self-lookup answered: a transport or read error, or a
   * status, the body, and the token's scopes as the JSON decoder read them.
   */
  datatype TokenLookup = RequestFailed(error: string) | Response(status: int, body: string, scopes: Result<seq<string>>)

  function StatusError(status: int, body: string): string {
    "something went wrong calling GitLab API, http status code is: " + Itoa(status) +
    ", and response is: " + Quote(body)
  }

  function MissingScopesError(missing: seq<string>): string {
    "the supplied github token is missing authorization scopes - please add: " + FormatList(missing)
  }

  /**
   * VerifyTokenPermissions after the request: a token with "api" passes;
   * otherwise the required scopes it lacks, in the order of RequiredScopes,
   * are reported, and it passes when there are none.
   */
  method VerifyTokenPermissions(lookup: TokenLookup) returns (err: Option<string>)
    ensures lookup.RequestFailed? ==> err == Some(lookup.error)
    ensures lookup.Response? && lookup.status != 200 ==> err == Some(StatusError(lookup.status, lookup.body))
    ensures lookup.Response? && lookup.status == 200 && lookup.scopes.Err? ==> err == Some(lookup.scopes.error)
    ensures lookup.Response? && lookup.status == 200 && lookup.scopes.Ok? ==>
      var scopes := lookup.scopes.value;
      ("api" in scopes ==> err == None) &&
      ("api" !in scopes ==>
        (err == None <==> Template.Diff(RequiredScopes, scopes) == []) &&
        (err != None ==> err == Some(MissingScopesError(Template.Diff(RequiredScopes, scopes)))))
  {
    if lookup.RequestFailed? {
      return Some(lookup.error);
    }
    if lookup.status != 200 {
      return Some(StatusError(lookup.status, lookup.body));
    }
    if lookup.scopes.Err? {
      return Some(lookup.scopes.error);
    }
    var scopes := lookup.scopes.value;
    var scopesSlice := CopyScopes(scopes);
    var hasApi := Helpers.FindStringInSlice(scopesSlice, "api");
    if hasApi {
      return None;
    }
    var missingScopes := MissingScopes(RequiredScopes, scopesSlice);
    if |missingScopes| != 0 {
      return Some(MissingScopesError(missingScopes));
    }
    return None;
  }

  /** The loop that appends each decoded scope to scopesSlice. */
  method CopyScopes(scopes: seq<string>) returns (scopesSlice: seq<string>)
    ensures scopesSlice == scopes
  {
    scopesSlice := [];
    for i := 0 to |scopes|
      invariant scopesSlice == scopes[..i]
    {
      scopesSlice := scopesSlice + [scopes[i]];
    }
    assert scopes[..|scopes|] == scopes;
  }

  /** The loop over the required scopes that collects those the token lacks, in their order. */
  method MissingScopes(required: seq<string>, scopesSlice: seq<string>) returns (missingScopes: seq<string>)
    ensures missingScopes == Template.Diff(required, scopesSlice)
  {
    missingScopes := [];
    for k := 0 to |required|
      invariant missingScopes == Template.Diff(required[..k], scopesSlice)
    {
      var present := Helpers.FindStringInSlice(scopesSlice, required[k]);
      Template.DiffSnoc(required[..k], required[k], scopesSlice);
      assert required[..k + 1] == required[..k] + [required[k]];
      if !present {
        missingScopes := missingScopes + [required[k]];
      }
    }
    assert required[..|required|] == required;
  }

  /** A token passes the scope check exactly when it holds every required scope, whatever else it holds. */
  lemma AllRequiredScopesPass(scopes: seq<string>)
    ensures Template.Diff(RequiredScopes, scopes) == [] <==>
      forall i :: 0 <= i < |RequiredScopes| ==> RequiredScopes[i] in scopes
  {
    Template.DiffEmpty(RequiredScopes, scopes);
  }

  /** Extra scopes never add to what is missing. */
  lemma ExtraScopesNeverHurt(scopes: seq<string>, extra: seq<string>)
    ensures forall x :: x in Template.Diff(RequiredScopes, scopes + extra) ==> x in Template.Diff(RequiredScopes, scopes)
  {
  }
}
