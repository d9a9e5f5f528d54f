/**
 * The zerolog set-up helpers: the short caller text printed with each log
 * line, and the level chosen by name.
 */
module Log {
  import opened GoStrings

  /**
   * The file part of the caller text: what follows the last "/" found at an
   * index above 0, or the whole path when there is none (a "/" at index 0
   * alone does not count).
   */
  function ShortFile(file: string): (short: string)
    ensures LastIndexOf(file, '/') > 0 ==> short == file[LastIndexOf(file, '/') + 1..] && '/' !in short
    ensures LastIndexOf(file, '/') <= 0 ==> short == file
    ensures short == file <==> forall j :: 0 < j < |file| ==> file[j] != '/'
    ensures forall j :: 0 < j < |short| ==> short[j] != '/'
  {
    var k := LastIndexOf(file, '/');
    if k > 0 then file[k + 1..] else file
  }

  /** The backwards scan of shortCallerMarshalFunc over the file path. */
  method ShortenFile(file: string) returns (short: string)
    ensures short == ShortFile(file)
  {
    short := file;
    var i := |file| - 1;
    while i > 0
      invariant -1 <= i < |file|
      invariant forall j :: i < j < |file| ==> file[j] != '/'
      decreases i
    {
      if file[i] == '/' {
        short := file[i + 1..];
        break;
      }
      i := i - 1;
    }
  }

  /** A function name with a "." has a package part: slicing at the last "." needs one. */
  predicate HasPackage(funcName: string) {
    LastIndexOf(funcName, '.') >= 0
  }

  /**
   * The package path of a function name, with every "." turned into "/"
   * when it holds more than one. Replacing as many occurrences as there are
   * is replacing all of them.
   */
  function PackagePath(funcName: string): (p: string)
    requires HasPackage(funcName)
    ensures var packageName := funcName[..LastIndexOf(funcName, '.')];
      |p| == |packageName| &&
      (Count(packageName, ".") > 1 ==> forall i :: 0 <= i < |p| ==>
        p[i] == if packageName[i] == '.' then '/' else packageName[i]) &&
      (Count(packageName, ".") <= 1 ==> p == packageName) &&
      (Count(packageName, ".") > 1 ==> '.' !in p)
  {
    var packageName := funcName[..LastIndexOf(funcName, '.')];
    if Count(packageName, ".") > 1 then
      ReplaceAllChar(packageName, '.', '/');
      ReplaceAll(packageName, ".", "/")
    else packageName
  }

  /** splitPath[3:] needs at least three segments; with fewer Go panics. */
  predicate CanShorten(funcName: string) {
    HasPackage(funcName) && |Split(PackagePath(funcName), "/")| >= 3
  }

  /** The package part: the segments after the third, joined by "/". */
  function ShortPackageName(funcName: string): string
    requires CanShorten(funcName)
  {
    Join(Split(PackagePath(funcName), "/")[3..], "/")
  }

  /** The caller text: package part, "/", file part, ":" and the line number. */
  function CallerText(file: string, funcName: string, line: int): string
    requires CanShorten(funcName)
  {
    ShortPackageName(funcName) + ("/" + ShortFile(file)) + (":" + Itoa(line))
  }

  /** shortCallerMarshalFunc, with the function name found from the program counter as an input. */
  method ShortCallerMarshal(file: string, funcName: string, line: int) returns (r: string)
    requires CanShorten(funcName)
    ensures r == CallerText(file, funcName, line)
  {
    var short := ShortenFile(file);
    var packageName := PackagePath(funcName);
    var splitPath := Split(packageName, "/");
    var shortPackageName := Join(splitPath[3..], "/");
    r := shortPackageName + ("/" + short) + (":" + Itoa(line));
  }

  /**
   * The caller text ends with ":" and the decimal line number, preceded by
   * the file part after a "/", and starts with the package part.
   */
  lemma CallerTextParts(file: string, funcName: string, line: int)
    requires CanShorten(funcName)
    ensures var r := CallerText(file, funcName, line);
      var tail := ":" + Itoa(line);
      var middle := "/" + ShortFile(file);
      var pkg := ShortPackageName(funcName);
      |r| == |pkg| + |middle| + |tail| &&
      r[|r| - |tail|..] == tail &&
      r[|pkg|..|pkg| + |middle|] == middle &&
      r[..|pkg|] == pkg
  {
    var tail := ":" + Itoa(line);
    var middle := "/" + ShortFile(file);
    var pkg := ShortPackageName(funcName);
    ConcatParts(pkg, middle, tail);
  }

  lemma ConcatParts(a: string, b: string, c: string)
    ensures var r := a + b + c;
      |r| == |a| + |b| + |c| && r[|r| - |c|..] == c && r[|a|..|a| + |b|] == b && r[..|a|] == a
  {
    var r := a + b + c;
    assert r[|r| - |c|..] == c;
    assert r[|a|..|a| + |b|] == b;
    assert r[..|a|] == a;
  }

  /**
   * The package part keeps exactly the segments after the third: splitting
   * it on "/" gives them back, when there is at least one.
   */
  lemma ShortPackageSegments(funcName: string)
    requires CanShorten(funcName) && |Split(PackagePath(funcName), "/")| >= 4
    ensures Split(ShortPackageName(funcName), "/") == Split(PackagePath(funcName), "/")[3..]
  {
    var parts := Split(PackagePath(funcName), "/");
    SplitPartsNoSep(PackagePath(funcName), '/');
    assert forall i :: 0 <= i < |parts[3..]| ==> parts[3..][i] == parts[i + 3];
    SplitJoin(parts[3..], '/');
  }

  /** zerolog's levels. */
  const TraceLevel := -1
  const DebugLevel := 0
  const InfoLevel := 1
  const WarnLevel := 2
  const ErrorLevel := 3
  const FatalLevel := 4
  const PanicLevel := 5

  /** The map GetLogLevelByString builds. */
  const Levels: map<string, int> := map[
    "trace" := TraceLevel, "debug" := DebugLevel, "info" := InfoLevel, "warning" := WarnLevel,
    "error" := ErrorLevel, "fatal" := FatalLevel, "panic" := PanicLevel]

  /**
   * GetLogLevelByString: the level of a known name; any other name, "warn"
   * among them, reads the map's zero value, which is the debug level.
   */
  function GetLogLevelByString(logLevel: string): (level: int)
    ensures logLevel in Levels ==> level == Levels[logLevel]
    ensures logLevel !in Levels ==> level == DebugLevel
    ensures TraceLevel <= level <= PanicLevel
  {
    if logLevel in Levels then Levels[logLevel] else 0
  }

  /** Each level is named once, so only "debug" and unknown names give the debug level. */
  lemma LevelNames(logLevel: string)
    ensures GetLogLevelByString(logLevel) == DebugLevel <==> logLevel == "debug" || logLevel !in Levels
    ensures forall a, b :: a in Levels && b in Levels && Levels[a] == Levels[b] ==> a == b
    ensures GetLogLevelByString("warn") == DebugLevel && GetLogLevelByString("warning") == WarnLevel
  {
    assert "warn" !in Levels;
    assert Levels["trace"] == TraceLevel && Levels["panic"] == PanicLevel;
  }
}
