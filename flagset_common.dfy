/**
 * Where a CLI setting comes from: the config file, a command-line flag, the
 * environment, or the flag's default, and how each is read.
 */
module FlagsetCommon {
  import opened Wrappers
  import opened GoStrings

  /** What viper holds under a set key, as GetString and GetBool read it. */
  datatype ConfigValue = ConfigValue(asString: string, asBool: bool)

  /** The value of a defined cobra flag: its default until the command line sets it. */
  datatype FlagValue = StringValue(s: string) | BoolValue(b: bool) | StringSliceValue(items: seq<string>)

  /** pflag's name for a flag's type. */
  function TypeName(v: FlagValue): string {
    match v
    case StringValue(_) => "string"
    case BoolValue(_) => "bool"
    case StringSliceValue(_) => "stringSlice"
  }

  datatype CliFlag = CliFlag(value: FlagValue, changed: bool)

  /**
   * The process state the readers consult: viper's keys (absent means nil),
   * the command's defined flags, and the environment.
   */
  datatype Context = Context(config: map<string, ConfigValue>, flags: map<string, CliFlag>, env: map<string, string>)

  /** The precedence outcome; Code gives the constant the Go code returns. */
  datatype Source = SourceConfig | SourceEnv | SourceFlag | SourceNone

  function Code(s: Source): int {
    match s
    case SourceConfig => 2
    case SourceEnv => 1
    case SourceFlag => 0
    case SourceNone => 99
  }

  /** GetConfig: the viper key of a flag. */
  function GetConfig(flag: string): (key: string)
    ensures HasPrefix(key, "config.") && key[7..] == flag
  {
    "config." + flag
  }

  /**
   * GetFlagVarName: "KUBEFIRST_" followed by the flag upper-cased, each "-"
   * turned into "_".
   */
  function GetFlagVarName(flag: string): (name: string)
    ensures |name| == 10 + |flag| && HasPrefix(name, "KUBEFIRST_")
    ensures forall i :: 0 <= i < |flag| ==>
      name[10 + i] == (if flag[i] == '-' then '_' else UpperChar(flag[i]))
    ensures forall i :: 0 <= i < |name| ==> name[i] != '-'
  {
    var varName := "KUBEFIRST_" + ToUpper(flag);
    ReplaceAllChar(varName, '-', '_');
    ReplaceAll(varName, "-", "_")
  }

  /** The flag names of the package's own test table and the variables they map to. */
  lemma GetFlagVarNameExamples()
    ensures GetFlagVarName("sample") == "KUBEFIRST_SAMPLE"
    ensures GetFlagVarName("sample-01") == "KUBEFIRST_SAMPLE_01"
    ensures GetFlagVarName("sample-01-ab") == "KUBEFIRST_SAMPLE_01_AB"
  {
    VarNameSample();
    VarNameSample01();
    VarNameSample01Ab();
  }

  lemma VarNameSample()
    ensures GetFlagVarName("sample") == "KUBEFIRST_SAMPLE"
  {
    VarNameIs("sample", "KUBEFIRST_SAMPLE");
  }

  lemma VarNameSample01()
    ensures GetFlagVarName("sample-01") == "KUBEFIRST_SAMPLE_01"
  {
    VarNameIs("sample-01", "KUBEFIRST_SAMPLE_01");
  }

  lemma VarNameSample01Ab()
    ensures GetFlagVarName("sample-01-ab") == "KUBEFIRST_SAMPLE_01_AB"
  {
    VarNameIs("sample-01-ab", "KUBEFIRST_SAMPLE_01_AB");
  }

  lemma VarNameIs(flag: string, expected: string)
    requires |expected| == 10 + |flag| && expected[..10] == "KUBEFIRST_"
    requires forall i :: 0 <= i < |flag| ==>
      expected[10 + i] == (if flag[i] == '-' then '_' else UpperChar(flag[i]))
    ensures GetFlagVarName(flag) == expected
  {
    var name := GetFlagVarName(flag);
    forall i | 0 <= i < |name| ensures name[i] == expected[i] {
      if i < 10 {
        assert name[i] == name[..10][i];
        assert expected[i] == expected[..10][i];
      } else {
        var j := i - 10;
        assert flag[j] == flag[j];
        assert name[10 + j] == (if flag[j] == '-' then '_' else UpperChar(flag[j]));
      }
    }
  }

  /**
   * DefineSource: a set config key wins, then a flag changed on the command
   * line, then an environment variable that is present (even if empty).
   */
  function DefineSource(ctx: Context, flag: string): (src: Source)
    ensures src == SourceConfig <==> GetConfig(flag) in ctx.config
    ensures src == SourceFlag <==>
      GetConfig(flag) !in ctx.config && flag in ctx.flags && ctx.flags[flag].changed
    ensures src == SourceEnv <==>
      GetConfig(flag) !in ctx.config && !(flag in ctx.flags && ctx.flags[flag].changed) &&
      GetFlagVarName(flag) in ctx.env
    ensures Code(src) in {0, 1, 2, 99}
  {
    if GetConfig(flag) in ctx.config then SourceConfig
    else if flag in ctx.flags && ctx.flags[flag].changed then SourceFlag
    else if GetFlagVarName(flag) in ctx.env then SourceEnv
    else SourceNone
  }

  /** pflag's lookup of a flag of one type: a flag that is not defined, or has another type, is an error. */
  function LookupTyped(ctx: Context, flag: string, ftype: string): (r: Result<FlagValue>)
    ensures r.Ok? <==> flag in ctx.flags && TypeName(ctx.flags[flag].value) == ftype
    ensures r.Ok? ==> r.value == ctx.flags[flag].value
  {
    if flag !in ctx.flags then Err("flag accessed but not defined: " + flag)
    else if TypeName(ctx.flags[flag].value) != ftype then
      Err("trying to get " + ftype + " value of flag of type " + TypeName(ctx.flags[flag].value))
    else Ok(ctx.flags[flag].value)
  }

  /** pflag's GetString. */
  function GetString(ctx: Context, flag: string): (r: Result<string>)
    ensures r.Ok? <==> flag in ctx.flags && ctx.flags[flag].value.StringValue?
    ensures r.Ok? ==> r.value == ctx.flags[flag].value.s
    ensures flag !in ctx.flags ==> r == Err("flag accessed but not defined: " + flag)
  {
    match LookupTyped(ctx, flag, "string")
    case Err(e) => Err(e)
    case Ok(v) => Ok(v.s)
  }

  /** pflag's GetBool. */
  function GetBool(ctx: Context, flag: string): (r: Result<bool>)
    ensures r.Ok? <==> flag in ctx.flags && ctx.flags[flag].value.BoolValue?
    ensures r.Ok? ==> r.value == ctx.flags[flag].value.b
    ensures flag !in ctx.flags ==> r == Err("flag accessed but not defined: " + flag)
  {
    match LookupTyped(ctx, flag, "bool")
    case Err(e) => Err(e)
    case Ok(v) => Ok(v.b)
  }

  /** pflag's GetStringSlice. */
  function GetStringSlice(ctx: Context, flag: string): (r: Result<seq<string>>)
    ensures r.Ok? <==> flag in ctx.flags && ctx.flags[flag].value.StringSliceValue?
    ensures r.Ok? ==> r.value == ctx.flags[flag].value.items
  {
    match LookupTyped(ctx, flag, "stringSlice")
    case Err(e) => Err(e)
    case Ok(v) => Ok(v.items)
  }

  /** os.Getenv: an unset variable reads as "". */
  function Getenv(ctx: Context, name: string): string {
    if name in ctx.env then ctx.env[name] else ""
  }

  /**
   * ReadConfigString: the config value for a config source, the environment
   * value for an environment source, and otherwise the flag's value, which is
   * its default when the command line did not set it.
   */
  function ReadConfigString(ctx: Context, flag: string): (r: Result<string>)
    ensures DefineSource(ctx, flag) == SourceConfig ==> r == Ok(ctx.config[GetConfig(flag)].asString)
    ensures DefineSource(ctx, flag) == SourceEnv ==> r == Ok(ctx.env[GetFlagVarName(flag)])
    ensures DefineSource(ctx, flag) in {SourceFlag, SourceNone} ==> r == GetString(ctx, flag)
    ensures r.Err? ==> DefineSource(ctx, flag) in {SourceFlag, SourceNone}
  {
    var source := DefineSource(ctx, flag);
    if source == SourceConfig then Ok(ctx.config[GetConfig(flag)].asString)
    else if source == SourceEnv then Ok(Getenv(ctx, GetFlagVarName(flag)))
    else GetString(ctx, flag)
  }

  /**
   * ReadConfigBool: as ReadConfigString, except that an environment value is
   * parsed with strconv.ParseBool and its error is passed on.
   */
  function ReadConfigBool(ctx: Context, flag: string): (r: Result<bool>)
    ensures DefineSource(ctx, flag) == SourceConfig ==> r == Ok(ctx.config[GetConfig(flag)].asBool)
    ensures DefineSource(ctx, flag) == SourceEnv ==> r == ParseBool(ctx.env[GetFlagVarName(flag)])
    ensures DefineSource(ctx, flag) in {SourceFlag, SourceNone} ==> r == GetBool(ctx, flag)
  {
    var source := DefineSource(ctx, flag);
    if source == SourceConfig then Ok(ctx.config[GetConfig(flag)].asBool)
    else if source == SourceEnv then ParseBool(Getenv(ctx, GetFlagVarName(flag)))
    else GetBool(ctx, flag)
  }

  /**
   * ReadConfigStringSlice: only the flag is consulted; neither the config
   * file nor the environment is.
   */
  function ReadConfigStringSlice(ctx: Context, flag: string): (r: Result<seq<string>>)
    ensures r.Ok? <==> flag in ctx.flags && ctx.flags[flag].value.StringSliceValue?
    ensures r.Ok? ==> r.value == ctx.flags[flag].value.items
  {
    GetStringSlice(ctx, flag)
  }

  /** The config file and the environment do not change what ReadConfigStringSlice reads. */
  lemma StringSliceIgnoresConfigAndEnv(ctx: Context, config: map<string, ConfigValue>, env: map<string, string>, flag: string)
    ensures ReadConfigStringSlice(Context(config, ctx.flags, env), flag) == ReadConfigStringSlice(ctx, flag)
  {
  }

  /** A present but empty variable still selects the environment, and reads as "". */
  lemma EmptyEnvSelectsEnv(ctx: Context, flag: string)
    requires GetConfig(flag) !in ctx.config && (flag in ctx.flags ==> !ctx.flags[flag].changed)
    requires GetFlagVarName(flag) in ctx.env && ctx.env[GetFlagVarName(flag)] == ""
    ensures DefineSource(ctx, flag) == SourceEnv && ReadConfigString(ctx, flag) == Ok("")
  {
  }
}
