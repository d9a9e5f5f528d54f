/** Domain-name helpers, a membership test and the random identifiers of pkg/helpers.go. */
module Helpers {
  import opened Wrappers
  import opened GoStrings

  /** The last two labels of a dot-separated name, joined by a dot. */
  function LastTwoLabels(labels: seq<string>): string
    requires |labels| >= 2
  {
    labels[|labels| - 2] + "." + labels[|labels| - 1]
  }

  lemma LastTwoLabelsSplit(labels: seq<string>)
    requires |labels| >= 2 && '.' !in labels[|labels| - 2] && '.' !in labels[|labels| - 1]
    ensures Split(LastTwoLabels(labels), ".") == labels[|labels| - 2..]
  {
    var two := labels[|labels| - 2..];
    assert Join(two, ".") == LastTwoLabels(labels) by {
      assert two[1..] == [two[1]];
    }
    SplitJoin(two, '.');
  }

  /**
   * RemoveSubdomainV2: trailing dots are dropped and the last two labels
   * kept. With fewer than two labels the Go code indexes out of range, so
   * callers must supply at least two.
   */
  function RemoveSubdomainV2(domainName: string): (r: Result<string>)
    requires |Split(TrimRight(domainName, '.'), ".")| >= 2
    ensures r.Ok?
    ensures var labels := Split(TrimRight(domainName, '.'), ".");
      Split(r.value, ".") == labels[|labels| - 2..]
  {
    var trimmed := TrimRight(domainName, '.');
    var labels := Split(trimmed, ".");
    SplitPartsNoSep(trimmed, '.');
    LastTwoLabelsSplit(labels);
    Ok(LastTwoLabels(labels))
  }

  /** What url.ParseRequestURI gives for a URL: its scheme and host. */
  datatype ParsedURL = ParsedURL(scheme: string, host: string)

  /** IsValidURL, given the parser's answer for `rawURL`; None is a nil error. */
  function IsValidURL(rawURL: string, parsed: Result<ParsedURL>): (err: Option<string>)
    ensures rawURL == "" ==> err == Some("rawURL cannot be empty string")
    ensures err == None <==> rawURL != "" && parsed.Ok?
  {
    if |rawURL| == 0 then Some("rawURL cannot be empty string")
    else if parsed.Err? then Some("the URL (" + rawURL + ") is invalid, error = " + parsed.error)
    else None
  }

  /** The URL RemoveSubDomain checks: "https://" is added unless it already starts with "http". */
  function WithScheme(fullURL: string): (u: string)
    ensures HasPrefix(fullURL, "http") ==> u == fullURL
    ensures !HasPrefix(fullURL, "http") ==> u == "https://" + fullURL
    ensures HasPrefix(u, "http")
  {
    if HasPrefix(fullURL, "http") then fullURL else "https://" + fullURL
  }

  /**
   * The host RemoveSubDomain builds: the last two labels joined with a
   * space, every space then turned into a dot. For labels without spaces it
   * is the last two labels joined by a dot.
   */
  function StrippedHost(labels: seq<string>): (host: string)
    requires |labels| >= 2
    ensures ' ' !in labels[|labels| - 2] && ' ' !in labels[|labels| - 1] ==> host == LastTwoLabels(labels)
  {
    var a, b := labels[|labels| - 2], labels[|labels| - 1];
    var two := labels[|labels| - 2..];
    assert two[1..] == [b];
    assert Join(two, " ") == a + " " + b;
    if ' ' !in a && ' ' !in b then
      DotsForSpaces(a, b);
      ReplaceAll(Join(two, " "), " ", ".")
    else ReplaceAll(Join(two, " "), " ", ".")
  }

  /** Turning the one space between two space-free labels into a dot. */
  lemma DotsForSpaces(a: string, b: string)
    requires ' ' !in a && ' ' !in b
    ensures ReplaceAll(a + " " + b, " ", ".") == a + "." + b
  {
    ReplaceAllChar(a + " " + b, ' ', '.');
    ReplaceAllAbsentChar(a, ' ', '.');
    ReplaceAllAbsentChar(b, ' ', '.');
    ReplaceAllChar(a, ' ', '.');
    ReplaceAllChar(b, ' ', '.');
  }

  /** The message IsValidURL gives for a URL the parser rejects with `e`. */
  function InvalidURL(rawURL: string, e: string): string {
    "the URL (" + rawURL + ") is invalid, error = " + e
  }

  /**
   * RemoveSubDomain, given the parser's answer for the URL with its scheme
   * and the parser's answer for the rebuilt URL. Each failing step returns
   * its own error; otherwise the host is the last two labels.
   */
  function RemoveSubDomain(fullURL: string, parsed: Result<ParsedURL>, reparsed: Result<ParsedURL>): (r: Result<string>)
    ensures parsed.Err? ==> r == Err(InvalidURL(WithScheme(fullURL), parsed.error))
    ensures parsed.Ok? && |Split(parsed.value.host, ".")| < 2 ==>
      r == Err("the fullURL (" + WithScheme(fullURL) + ") is invalid")
    ensures parsed.Ok? && |Split(parsed.value.host, ".")| >= 2 && reparsed.Err? ==>
      r == Err(InvalidURL(parsed.value.scheme + "://" + StrippedHost(Split(parsed.value.host, ".")), reparsed.error))
    ensures r.Ok? <==> parsed.Ok? && reparsed.Ok? && |Split(parsed.value.host, ".")| >= 2
    ensures r.Ok? ==> r.value == StrippedHost(Split(parsed.value.host, "."))
    ensures r.Ok? ==> var labels := Split(parsed.value.host, ".");
      (' ' !in labels[|labels| - 2] && ' ' !in labels[|labels| - 1] ==>
       r.value == LastTwoLabels(labels) && Split(r.value, ".") == labels[|labels| - 2..])
  {
    var url := WithScheme(fullURL);
    var err := IsValidURL(url, parsed);
    if err.Some? then Err(err.value)
    else
      var labels := Split(parsed.value.host, ".");
      if |labels| < 2 then Err("the fullURL (" + url + ") is invalid")
      else
        var host := StrippedHost(labels);
        var result := parsed.value.scheme + "://" + host;
        var err2 := IsValidURL(result, reparsed);
        if err2.Some? then Err(err2.value)
        else
          SplitPartsNoSep(parsed.value.host, '.');
          HostKeepsLastTwo(labels);
          Ok(host)
  }

  /** Joining the last two labels by a space and turning spaces into dots keeps the two labels. */
  lemma HostKeepsLastTwo(labels: seq<string>)
    requires |labels| >= 2 && '.' !in labels[|labels| - 2] && '.' !in labels[|labels| - 1]
    ensures ' ' !in labels[|labels| - 2] && ' ' !in labels[|labels| - 1] ==>
      Split(StrippedHost(labels), ".") == labels[|labels| - 2..]
  {
    if ' ' !in labels[|labels| - 2] && ' ' !in labels[|labels| - 1] {
      LastTwoLabelsSplit(labels);
    }
  }

  lemma ReplaceAllAbsentChar(s: string, a: char, b: char)
    requires a !in s
    ensures ReplaceAll(s, [a], [b]) == s
  {
    ReplaceAllChar(s, a, b);
  }

  /** A host with no dot, "xyz" or "invalid-examplecom" as in the package's tests, is an error. */
  lemma SingleLabelHostIsError(fullURL: string, scheme: string, host: string, reparsed: Result<ParsedURL>)
    requires '.' !in host
    ensures RemoveSubDomain(fullURL, Ok(ParsedURL(scheme, host)), reparsed).Err?
  {
    SplitNoSep(host, '.');
  }

  /**
   * A host of two or more dot-separated labels, none holding a space, keeps
   * exactly its last two labels once both parses succeed.
   */
  lemma SubdomainRemoved(fullURL: string, scheme: string, labels: seq<string>, reparsed: ParsedURL)
    requires |labels| >= 2 && forall i :: 0 <= i < |labels| ==> '.' !in labels[i] && ' ' !in labels[i]
    ensures RemoveSubDomain(fullURL, Ok(ParsedURL(scheme, Join(labels, "."))), Ok(reparsed)) ==
      Ok(LastTwoLabels(labels))
  {
    SplitJoin(labels, '.');
  }

  /** As hub.hub.example.com in the package's test table: two leading labels go, domain.tld stays. */
  lemma TwoSubdomainsRemoved(fullURL: string, scheme: string, sub1: string, sub2: string, domain: string, tld: string,
                             reparsed: ParsedURL)
    requires '.' !in sub1 && '.' !in sub2 && '.' !in domain && '.' !in tld
    requires ' ' !in sub1 && ' ' !in sub2 && ' ' !in domain && ' ' !in tld
    ensures RemoveSubDomain(fullURL, Ok(ParsedURL(scheme, sub1 + "." + sub2 + "." + domain + "." + tld)), Ok(reparsed)) ==
      Ok(domain + "." + tld)
  {
    var labels := [sub1, sub2, domain, tld];
    JoinFour(labels, ".");
    SubdomainRemoved(fullURL, scheme, labels, reparsed);
  }

  lemma JoinFour(parts: seq<string>, sep: string)
    requires |parts| == 4
    ensures Join(parts, sep) == parts[0] + sep + parts[1] + sep + parts[2] + sep + parts[3]
  {
    var rest := parts[1..];
    assert rest[1..] == [parts[2], parts[3]] && rest[1..][1..] == [parts[3]];
    assert Join(rest[1..], sep) == parts[2] + sep + parts[3];
    assert Join(rest, sep) == parts[1] + sep + (parts[2] + sep + parts[3]);
  }

  /** From the package's test table: x.xyz is kept whole. */
  lemma TwoLabelHostKept(scheme: string, reparsed: ParsedURL)
    ensures RemoveSubDomain("https://x.xyz", Ok(ParsedURL(scheme, "x.xyz")), Ok(reparsed)) == Ok("x.xyz")
  {
    var labels := ["x", "xyz"];
    assert Join(labels, ".") == "x.xyz" by {
      assert labels[1..] == ["xyz"];
    }
    SubdomainRemoved("https://x.xyz", scheme, labels, reparsed);
  }

  /** FindStringInSlice: a linear scan that stops at the first equal element. */
  method FindStringInSlice(s: seq<string>, str: string) returns (found: bool)
    ensures found <==> str in s
  {
    for i := 0 to |s|
      invariant str !in s[..i]
    {
      if s[i] == str {
        return true;
      }
      assert s[..i + 1] == s[..i] + [s[i]];
    }
    assert s[..|s|] == s;
    return false;
  }

  const Lower := "abcdefghijklmnopqrstuvwxyz"
  const Upper := "ABCDEFGHIJKLMNOPQRSTUVWXYZ"
  /** The alphabet of randSeq. */
  const Letters := Lower + Upper
  /** The alphabet of GenerateClusterID. */
  const Charset := Lower + "0123456789"

  /**
   * StringWithCharset: a buffer of `length` characters, each picked from the
   * charset by the next random draw. `draws` stands for the successive
   * results of Intn(len(charset)), each below the charset's length.
   */
  method StringWithCharset(length: nat, charset: string, draws: seq<nat>) returns (r: string)
    requires |charset| > 0 && |draws| == length
    requires forall i :: 0 <= i < |draws| ==> draws[i] < |charset|
    ensures |r| == length
    ensures forall i :: 0 <= i < |r| ==> r[i] == charset[draws[i]] && r[i] in charset
  {
    var b := new char[length];
    for i := 0 to length
      invariant forall k :: 0 <= k < i ==> b[k] == charset[draws[k]]
    {
      b[i] := charset[draws[i]];
    }
    r := b[..];
  }

  /** randSeq: `n` letters, each picked by the next draw of Intn(52). */
  method RandSeq(n: nat, draws: seq<nat>) returns (r: string)
    requires |draws| == n && forall i :: 0 <= i < |draws| ==> draws[i] < |Letters|
    ensures |r| == n && forall i :: 0 <= i < |r| ==> r[i] in Letters
    ensures forall i :: 0 <= i < |r| ==> ('a' <= r[i] <= 'z' || 'A' <= r[i] <= 'Z')
  {
    r := StringWithCharset(n, Letters, draws);
    forall i | 0 <= i < |r| ensures 'a' <= r[i] <= 'z' || 'A' <= r[i] <= 'Z' {
      LetterIsAscii(draws[i]);
    }
  }

  /** `n` consecutive characters from `lo` on. */
  function CharRange(lo: char, n: nat): (r: string)
    requires lo as int + n <= 0xD800
    ensures |r| == n && forall i :: 0 <= i < n ==> r[i] == (lo as int + i) as char
  {
    seq(n, i requires 0 <= i < n => (lo as int + i) as char)
  }

  lemma LetterIsAscii(k: nat)
    requires k < |Letters|
    ensures 'a' <= Letters[k] <= 'z' || 'A' <= Letters[k] <= 'Z'
  {
    assert Lower == CharRange('a', 26);
    assert Upper == CharRange('A', 26);
  }

  lemma CharsetIsAlnum(k: nat)
    requires k < |Charset|
    ensures 'a' <= Charset[k] <= 'z' || '0' <= Charset[k] <= '9'
  {
    assert Lower == CharRange('a', 26);
    assert "0123456789" == CharRange('0', 10);
  }

  /** GenerateClusterID: six characters from [a-z0-9]. */
  method GenerateClusterID(draws: seq<nat>) returns (id: string)
    requires |draws| == 6 && forall i :: 0 <= i < 6 ==> draws[i] < |Charset|
    ensures |id| == 6
    ensures forall i :: 0 <= i < 6 ==> ('a' <= id[i] <= 'z' || '0' <= id[i] <= '9')
  {
    id := StringWithCharset(6, Charset, draws);
    forall i | 0 <= i < 6 ensures 'a' <= id[i] <= 'z' || '0' <= id[i] <= '9' {
      CharsetIsAlnum(draws[i]);
    }
  }
}
