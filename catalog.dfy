/**
 * Validation of the gitops-catalog applications named on the command line
 * against the fetched catalog, filling each required key from the environment.
 */
module Catalog {
  import opened Wrappers
  import GoStrings

  /** A secret or config key of a catalog application: the variable to read and the value read. */
  datatype Key = Key(Name: string, Env: string, Value: string)

  datatype CatalogApp = CatalogApp(Name: string, SecretKeys: seq<Key>, ConfigKeys: seq<Key>)

  datatype CatalogError =
    | FetchFailed(error: string)
    | EnvNotSet(env: string, app: string)
    | NotSupported(app: string)

  function Message(e: CatalogError): string {
    match e
    case FetchFailed(error) => error
    case EnvNotSet(env, app) =>
      "your " + GoStrings.Quote(env) + " environment variable is not set for " + GoStrings.Quote(app) +
      " catalog application. Please set and try again"
    case NotSupported(app) => "catalog app is not supported: " + GoStrings.Quote(app)
  }

  datatype Validation = Validated(apps: seq<CatalogApp>) | Failed(err: CatalogError)

  /** os.Getenv: an unset variable reads as "". */
  function Getenv(env: map<string, string>, name: string): string {
    if name in env then env[name] else ""
  }

  /** The position of the first catalog entry named `name`. */
  function FirstMatch(name: string, apps: seq<CatalogApp>): (r: Option<nat>)
    ensures r.Some? ==> r.value < |apps| && apps[r.value].Name == name
    ensures r.Some? ==> forall j :: 0 <= j < r.value ==> apps[j].Name != name
    ensures r.None? ==> forall j :: 0 <= j < |apps| ==> apps[j].Name != name
    decreases |apps|
  {
    if |apps| == 0 then None
    else if apps[0].Name == name then Some(0)
    else match FirstMatch(name, apps[1..])
      case None => None
      case Some(i) => Some(i + 1)
  }

  /** The position of the first key whose variable is empty or unset. */
  function FirstUnset(keys: seq<Key>, env: map<string, string>): (r: Option<nat>)
    ensures r.Some? ==> r.value < |keys| && Getenv(env, keys[r.value].Env) == ""
    ensures r.Some? ==> forall j :: 0 <= j < r.value ==> Getenv(env, keys[j].Env) != ""
    ensures r.None? ==> forall j :: 0 <= j < |keys| ==> Getenv(env, keys[j].Env) != ""
    decreases |keys|
  {
    if |keys| == 0 then None
    else if Getenv(env, keys[0].Env) == "" then Some(0)
    else match FirstUnset(keys[1..], env)
      case None => None
      case Some(i) => Some(i + 1)
  }

  /** Each key with its value read from the environment. */
  function Filled(keys: seq<Key>, env: map<string, string>): (r: seq<Key>)
    ensures |r| == |keys|
    ensures forall j :: 0 <= j < |keys| ==>
      r[j] == Key(keys[j].Name, keys[j].Env, Getenv(env, keys[j].Env))
  {
    seq(|keys|, j requires 0 <= j < |keys| => keys[j].(Value := Getenv(env, keys[j].Env)))
  }

  /**
   * One named application: the first catalog entry with that name, its secret
   * keys and then its config keys filled; the first unset variable is an error.
   */
  function Resolve(name: string, apps: seq<CatalogApp>, env: map<string, string>): (r: Validation)
  {
    match FirstMatch(name, apps)
    case None => Failed(NotSupported(name))
    case Some(i) =>
      var app := apps[i];
      match FirstUnset(app.SecretKeys, env)
      case Some(k) => Failed(EnvNotSet(app.SecretKeys[k].Env, name))
      case None =>
        match FirstUnset(app.ConfigKeys, env)
        case Some(k) => Failed(EnvNotSet(app.ConfigKeys[k].Env, name))
        case None => Validated([CatalogApp(app.Name, Filled(app.SecretKeys, env), Filled(app.ConfigKeys, env))])
  }

  /** Every named application resolved in order; the first failure is the result. */
  function ValidateAll(items: seq<string>, apps: seq<CatalogApp>, env: map<string, string>): (r: Validation)
    decreases |items|
  {
    if |items| == 0 then Validated([])
    else
      match ValidateAll(items[..|items| - 1], apps, env)
      case Failed(e) => Failed(e)
      case Validated(done) =>
        match Resolve(items[|items| - 1], apps, env)
        case Failed(e) => Failed(e)
        case Validated(one) => Validated(done + one)
  }

  /** An application name is satisfiable when the catalog has it and every variable its first entry needs is set. */
  predicate Satisfiable(name: string, apps: seq<CatalogApp>, env: map<string, string>) {
    var m := FirstMatch(name, apps);
    m.Some? &&
    (forall k :: 0 <= k < |apps[m.value].SecretKeys| ==> Getenv(env, apps[m.value].SecretKeys[k].Env) != "") &&
    (forall k :: 0 <= k < |apps[m.value].ConfigKeys| ==> Getenv(env, apps[m.value].ConfigKeys[k].Env) != "")
  }

  /**
   * Resolve succeeds exactly on a satisfiable name, with one entry: the first
   * catalog entry of that name and its keys' values read from the environment.
   */
  lemma ResolveMeaning(name: string, apps: seq<CatalogApp>, env: map<string, string>)
    ensures Resolve(name, apps, env).Validated? <==> Satisfiable(name, apps, env)
    ensures Resolve(name, apps, env).Validated? ==>
      var i := FirstMatch(name, apps).value;
      Resolve(name, apps, env).apps ==
        [CatalogApp(name, Filled(apps[i].SecretKeys, env), Filled(apps[i].ConfigKeys, env))]
    ensures Resolve(name, apps, env) == Failed(NotSupported(name)) <==>
      forall j :: 0 <= j < |apps| ==> apps[j].Name != name
    ensures Resolve(name, apps, env).Failed? && Resolve(name, apps, env).err.EnvNotSet? ==>
      Getenv(env, Resolve(name, apps, env).err.env) == "" && Resolve(name, apps, env).err.app == name
  {
    var m := FirstMatch(name, apps);
    if m.Some? {
      var app := apps[m.value];
      var s := FirstUnset(app.SecretKeys, env);
      var c := FirstUnset(app.ConfigKeys, env);
      if s.Some? {
        assert Getenv(env, app.SecretKeys[s.value].Env) == "";
      } else if c.Some? {
        assert Getenv(env, app.ConfigKeys[c.value].Env) == "";
      }
    }
  }

  /**
   * On success there is one entry per named item, in order, duplicates
   * included, each the first catalog entry of that name with every key filled.
   * Success holds exactly when every item is satisfiable.
   */
  lemma ValidateAllMeaning(items: seq<string>, apps: seq<CatalogApp>, env: map<string, string>)
    ensures ValidateAll(items, apps, env).Validated? <==>
      forall n :: 0 <= n < |items| ==> Satisfiable(items[n], apps, env)
    ensures ValidateAll(items, apps, env).Validated? ==>
      var out := ValidateAll(items, apps, env).apps;
      |out| == |items| &&
      forall n :: 0 <= n < |items| ==>
        var i := FirstMatch(items[n], apps).value;
        out[n] == CatalogApp(items[n], Filled(apps[i].SecretKeys, env), Filled(apps[i].ConfigKeys, env))
  {
    ValidateAllSucceeds(items, apps, env);
    ValidateAllEntries(items, apps, env);
  }

  lemma {:induction false} ValidateAllSucceeds(items: seq<string>, apps: seq<CatalogApp>, env: map<string, string>)
    ensures ValidateAll(items, apps, env).Validated? <==>
      forall n :: 0 <= n < |items| ==> Satisfiable(items[n], apps, env)
    decreases |items|
  {
    if |items| > 0 {
      var front := items[..|items| - 1];
      ValidateAllSucceeds(front, apps, env);
      ResolveMeaning(items[|items| - 1], apps, env);
      assert forall n :: 0 <= n < |front| ==> front[n] == items[n];
      if !ValidateAll(front, apps, env).Validated? {
        var n :| 0 <= n < |front| && !Satisfiable(front[n], apps, env);
        assert !Satisfiable(items[n], apps, env);
      }
    }
  }

  lemma {:induction false} ValidateAllEntries(items: seq<string>, apps: seq<CatalogApp>, env: map<string, string>)
    ensures ValidateAll(items, apps, env).Validated? ==>
      var out := ValidateAll(items, apps, env).apps;
      |out| == |items| &&
      forall n :: 0 <= n < |items| ==>
        var m := FirstMatch(items[n], apps);
        m.Some? && out[n] == CatalogApp(items[n], Filled(apps[m.value].SecretKeys, env), Filled(apps[m.value].ConfigKeys, env))
    decreases |items|
  {
    if |items| > 0 && ValidateAll(items, apps, env).Validated? {
      var front := items[..|items| - 1];
      var last := items[|items| - 1];
      ValidateAllEntries(front, apps, env);
      ResolveMeaning(last, apps, env);
      assert forall n :: 0 <= n < |front| ==> front[n] == items[n];
      var out := ValidateAll(items, apps, env).apps;
      var done := ValidateAll(front, apps, env).apps;
      assert out == done + Resolve(last, apps, env).apps;
    }
  }

  /** One more item after a validated prefix: its resolution is appended, or its failure is the result. */
  lemma ValidateAllSnoc(items: seq<string>, n: nat, apps: seq<CatalogApp>, env: map<string, string>)
    requires n < |items| && ValidateAll(items[..n], apps, env).Validated?
    ensures ValidateAll(items[..n + 1], apps, env) ==
      match Resolve(items[n], apps, env)
      case Failed(e) => Failed(e)
      case Validated(one) => Validated(ValidateAll(items[..n], apps, env).apps + one)
  {
    assert items[..n + 1][..n] == items[..n];
  }

  /** A failure on a prefix of the items is the failure of the whole list. */
  lemma {:induction false} FailureStops(items: seq<string>, k: nat, apps: seq<CatalogApp>, env: map<string, string>)
    requires k <= |items| && ValidateAll(items[..k], apps, env).Failed?
    ensures ValidateAll(items, apps, env) == ValidateAll(items[..k], apps, env)
    decreases |items| - k
  {
    if k < |items| {
      assert items[..k + 1][..k] == items[..k];
      FailureStops(items, k + 1, apps, env);
    } else {
      assert items[..k] == items;
    }
  }

  /**
   * The loop over one key list: each key's value is read from the environment
   * and written back at its position, and the first unset variable stops it.
   */
  method FillKeys(keys: seq<Key>, env: map<string, string>) returns (filled: seq<Key>, unset: Option<string>)
    ensures FirstUnset(keys, env).Some? ==> unset == Some(keys[FirstUnset(keys, env).value].Env)
    ensures FirstUnset(keys, env).None? ==> unset == None && filled == Filled(keys, env)
  {
    filled := keys;
    for pos := 0 to |keys|
      invariant |filled| == |keys|
      invariant forall j :: 0 <= j < pos ==> Getenv(env, keys[j].Env) != ""
      invariant forall j :: 0 <= j < pos ==> filled[j] == keys[j].(Value := Getenv(env, keys[j].Env))
      invariant forall j :: pos <= j < |keys| ==> filled[j] == keys[j]
    {
      var secret := filled[pos];
      var secretValue := Getenv(env, secret.Env);
      if secretValue == "" {
        return filled, Some(secret.Env);
      }
      secret := secret.(Value := secretValue);
      filled := filled[pos := secret];
    }
    return filled, None;
  }

  /**
   * The inner loop of ValidateCatalogApps for one requested name: the first
   * catalog entry of that name, with its secret keys and then its config
   * keys filled from the environment; no entry, or an unset variable, is the
   * error the loop returns.
   */
  method ResolveItem(app: string, apps: seq<CatalogApp>, env: map<string, string>) returns (r: Validation)
    ensures r == Resolve(app, apps, env)
  {
    var i := 0;
    while i < |apps|
      invariant 0 <= i <= |apps|
      invariant forall j :: 0 <= j < i ==> apps[j].Name != app
    {
      var catalogApp := apps[i];
      if app == catalogApp.Name {
        assert FirstMatch(app, apps) == Some(i);
        var secrets, unsetSecret := FillKeys(catalogApp.SecretKeys, env);
        if unsetSecret.Some? {
          return Failed(EnvNotSet(unsetSecret.value, app));
        }
        catalogApp := catalogApp.(SecretKeys := secrets);
        var configs, unsetConfig := FillKeys(catalogApp.ConfigKeys, env);
        if unsetConfig.Some? {
          return Failed(EnvNotSet(unsetConfig.value, app));
        }
        catalogApp := catalogApp.(ConfigKeys := configs);
        return Validated([catalogApp]);
      }
      i := i + 1;
    }
    assert FirstMatch(app, apps) == None;
    return Failed(NotSupported(app));
  }

  /**
   * ValidateCatalogApps, with the fetched catalog (or the error fetching it)
   * and the environment as inputs. An empty list needs no catalog at all.
   */
  method ValidateCatalogApps(catalogApps: string, fetched: Result<seq<CatalogApp>>, env: map<string, string>)
    returns (r: Validation)
    ensures catalogApps == "" ==> r == Validated([])
    ensures catalogApps != "" && fetched.Err? ==> r == Failed(FetchFailed(fetched.error))
    ensures catalogApps != "" && fetched.Ok? ==>
      r == ValidateAll(GoStrings.Split(catalogApps, ","), fetched.value, env)
  {
    if catalogApps == "" {
      return Validated([]);
    }
    if fetched.Err? {
      return Failed(FetchFailed(fetched.error));
    }
    var apps := fetched.value;
    var items := GoStrings.Split(catalogApps, ",");
    var gitopsCatalogapps: seq<CatalogApp> := [];
    for n := 0 to |items|
      invariant ValidateAll(items[..n], apps, env) == Validated(gitopsCatalogapps)
    {
      ValidateAllSnoc(items, n, apps, env);
      var one := ResolveItem(items[n], apps, env);
      if one.Failed? {
        FailureStops(items, n + 1, apps, env);
        return one;
      }
      gitopsCatalogapps := gitopsCatalogapps + one.apps;
    }
    assert items[..|items|] == items;
    return Validated(gitopsCatalogapps);
  }
}
