/**
 * The parts of Go's `strings` and `strconv` packages that the model calls,
 * over `string` = `seq<char>`, with each character standing for one byte or rune.
 */
module GoStrings {
  import opened Wrappers

  predicate HasPrefix(s: string, prefix: string) {
    |prefix| <= |s| && s[..|prefix|] == prefix
  }

  /** strings.Contains: `sub` occurs in `s` at some position. */
  predicate Contains(s: string, sub: string)
    decreases |s|
  {
    HasPrefix(s, sub) || (|s| > 0 && Contains(s[1..], sub))
  }

  lemma {:induction false} ContainsAt(s: string, sub: string, i: nat)
    requires i + |sub| <= |s| && s[i..i + |sub|] == sub
    ensures Contains(s, sub)
    decreases i
  {
    if i > 0 {
      assert s[1..][i - 1..i - 1 + |sub|] == s[i..i + |sub|];
      ContainsAt(s[1..], sub, i - 1);
    }
  }

  lemma {:induction false} ContainsSuffix(s: string, sub: string, k: nat)
    requires k <= |s| && Contains(s[k..], sub)
    ensures Contains(s, sub)
    decreases k
  {
    if k > 0 {
      assert s[1..][k - 1..] == s[k..];
      ContainsSuffix(s[1..], sub, k - 1);
    }
  }

  /** Text added after a text that contains `sub` does not hide it. */
  lemma {:induction false} ContainsAppend(s: string, sub: string, after: string)
    requires Contains(s, sub)
    ensures Contains(s + after, sub)
    decreases |s|
  {
    if !HasPrefix(s, sub) {
      ContainsAppend(s[1..], sub, after);
      assert (s + after)[1..] == s[1..] + after;
    } else {
      assert (s + after)[..|sub|] == s[..|sub|];
    }
  }

  /** A text contains each prefix of what follows its first part. */
  lemma PrefixAfter(front: string, t: string, sub: string)
    requires HasPrefix(t, sub)
    ensures Contains(front + t, sub)
  {
    assert (front + t)[|front|..|front| + |sub|] == t[..|sub|];
    ContainsAt(front + t, sub, |front|);
  }

  /** A text that ends with `suffix` still ends with it with anything put in front. */
  /** strings.HasSuffix: `s` ends with `suffix`. */
  predicate HasSuffix(s: string, suffix: string) {
    |suffix| <= |s| && s[|s| - |suffix|..] == suffix
  }

  /** A text that ends with `suffix` still does with anything in front of it. */
  lemma SuffixKept(front: string, t: string, suffix: string)
    requires HasSuffix(t, suffix)
    ensures HasSuffix(front + t, suffix)
  {
    assert (front + t)[|front + t| - |suffix|..] == t[|t| - |suffix|..];
  }

  /** A text that contains `sub` still contains it with anything added at either end. */
  lemma ContainsWithin(s: string, sub: string, before: string, after: string)
    requires Contains(s, sub)
    ensures Contains(before + s + after, sub)
  {
    ContainsAppend(s, sub, after);
    assert (before + s + after)[|before|..] == s + after;
    ContainsSuffix(before + s + after, sub, |before|);
  }

  /** The index of the last `c` in `s`, or -1 (strings.LastIndex with a one-character separator). */
  function LastIndexOf(s: string, c: char): (r: int)
    ensures -1 <= r < |s|
    ensures r >= 0 ==> s[r] == c
    ensures forall j :: r < j < |s| ==> s[j] != c
    decreases |s|
  {
    if |s| == 0 then -1
    else if s[|s| - 1] == c then |s| - 1
    else LastIndexOf(s[..|s| - 1], c)
  }

  /**
   * strings.ReplaceAll(s, pat, rep): scanning left to right, every occurrence
   * of `pat` that does not overlap an earlier replaced one becomes `rep`. An
   * empty `pat` inserts `rep` before every character and once at the end.
   */
  function ReplaceAll(s: string, pat: string, rep: string): string
    decreases |s|
  {
    if |pat| == 0 then
      if |s| == 0 then rep else rep + [s[0]] + ReplaceAll(s[1..], pat, rep)
    else if |s| < |pat| then s
    else if s[..|pat|] == pat then rep + ReplaceAll(s[|pat|..], pat, rep)
    else [s[0]] + ReplaceAll(s[1..], pat, rep)
  }

  /** strings.Split with a non-empty separator. */
  function Split(s: string, sep: string): (parts: seq<string>)
    requires |sep| > 0
    ensures |parts| >= 1
    decreases |s|
  {
    if |s| < |sep| then [s]
    else if s[..|sep|] == sep then [""] + Split(s[|sep|..], sep)
    else
      var rest := Split(s[1..], sep);
      [[s[0]] + rest[0]] + rest[1..]
  }

  /** strings.Join. */
  function Join(parts: seq<string>, sep: string): string
    decreases |parts|
  {
    if |parts| == 0 then ""
    else if |parts| == 1 then parts[0]
    else parts[0] + sep + Join(parts[1..], sep)
  }

  /** strings.Count with a non-empty pattern: the number of non-overlapping occurrences. */
  function Count(s: string, pat: string): nat
    requires |pat| > 0
    decreases |s|
  {
    if |s| < |pat| then 0
    else if s[..|pat|] == pat then 1 + Count(s[|pat|..], pat)
    else Count(s[1..], pat)
  }

  lemma JoinConsHead(c: char, p: string, ps: seq<string>, sep: string)
    ensures Join([[c] + p] + ps, sep) == [c] + Join([p] + ps, sep)
  {
    if |ps| > 0 {
      assert ([[c] + p] + ps)[1..] == ps;
      assert ([p] + ps)[1..] == ps;
    }
  }

  lemma JoinConsEmpty(ps: seq<string>, sep: string)
    requires |ps| >= 1
    ensures Join([""] + ps, sep) == sep + Join(ps, sep)
  {
    assert ([""] + ps)[1..] == ps;
  }

  /** Splitting and joining again with the same separator gives back the text. */
  lemma {:induction false} JoinSplit(s: string, sep: string)
    requires |sep| > 0
    ensures Join(Split(s, sep), sep) == s
    decreases |s|
  {
    if |s| < |sep| {
    } else if s[..|sep|] == sep {
      JoinSplit(s[|sep|..], sep);
      JoinConsEmpty(Split(s[|sep|..], sep), sep);
      assert s == sep + s[|sep|..];
    } else {
      var rest := Split(s[1..], sep);
      JoinSplit(s[1..], sep);
      JoinConsHead(s[0], rest[0], rest[1..], sep);
      assert [rest[0]] + rest[1..] == rest;
      assert s == [s[0]] + s[1..];
    }
  }

  /** There is one more piece than there are separators. */
  lemma {:induction false} SplitCount(s: string, sep: string)
    requires |sep| > 0
    ensures |Split(s, sep)| == Count(s, sep) + 1
    decreases |s|
  {
    if |s| < |sep| {
    } else if s[..|sep|] == sep {
      SplitCount(s[|sep|..], sep);
    } else {
      SplitCount(s[1..], sep);
    }
  }

  /** ReplaceAll is Split followed by Join with the replacement. */
  lemma {:induction false} ReplaceAllIsSplitJoin(s: string, pat: string, rep: string)
    requires |pat| > 0
    ensures ReplaceAll(s, pat, rep) == Join(Split(s, pat), rep)
    decreases |s|
  {
    if |s| < |pat| {
    } else if s[..|pat|] == pat {
      ReplaceAllIsSplitJoin(s[|pat|..], pat, rep);
      JoinConsEmpty(Split(s[|pat|..], pat), rep);
    } else {
      var rest := Split(s[1..], pat);
      ReplaceAllIsSplitJoin(s[1..], pat, rep);
      JoinConsHead(s[0], rest[0], rest[1..], rep);
      assert [rest[0]] + rest[1..] == rest;
    }
  }

  /** Text that does not contain the pattern comes back unchanged. */
  lemma {:induction false} ReplaceAllAbsent(s: string, pat: string, rep: string)
    requires !Contains(s, pat)
    ensures ReplaceAll(s, pat, rep) == s
    decreases |s|
  {
    if |s| >= |pat| && |pat| > 0 {
      ReplaceAllAbsent(s[1..], pat, rep);
    }
  }

  lemma MulSucc(c: int, d: int)
    ensures (1 + c) * d == d + c * d
  {
  }

  /** Each replaced occurrence changes the length by |rep| - |pat|. */
  lemma {:induction false} ReplaceAllLength(s: string, pat: string, rep: string)
    requires |pat| > 0
    ensures |ReplaceAll(s, pat, rep)| == |s| + Count(s, pat) * (|rep| - |pat|)
    decreases |s|
  {
    var d := |rep| - |pat|;
    if |s| < |pat| {
    } else if s[..|pat|] == pat {
      var t := s[|pat|..];
      ReplaceAllLength(t, pat, rep);
      var c := Count(t, pat);
      assert ReplaceAll(s, pat, rep) == rep + ReplaceAll(t, pat, rep);
      assert Count(s, pat) == 1 + c;
      MulSucc(c, d);
    } else {
      ReplaceAllLength(s[1..], pat, rep);
      assert ReplaceAll(s, pat, rep) == [s[0]] + ReplaceAll(s[1..], pat, rep);
      assert Count(s, pat) == Count(s[1..], pat);
    }
  }

  /** Replacing a one-character pattern by one character rewrites the text character by character. */
  lemma {:induction false} ReplaceAllChar(s: string, a: char, b: char)
    ensures |ReplaceAll(s, [a], [b])| == |s|
    ensures forall i :: 0 <= i < |s| ==> ReplaceAll(s, [a], [b])[i] == if s[i] == a then b else s[i]
    decreases |s|
  {
    if |s| > 0 {
      ReplaceAllChar(s[1..], a, b);
      if s[..1] == [a] {
        assert ReplaceAll(s, [a], [b]) == [b] + ReplaceAll(s[1..], [a], [b]);
      } else {
        assert ReplaceAll(s, [a], [b]) == [s[0]] + ReplaceAll(s[1..], [a], [b]);
      }
    }
  }

  function UpperChar(c: char): char {
    if 'a' <= c <= 'z' then (c as int - 32) as char else c
  }

  function LowerChar(c: char): char {
    if 'A' <= c <= 'Z' then (c as int + 32) as char else c
  }

  /** strings.ToUpper on ASCII letters; other characters are kept. */
  function ToUpper(s: string): (r: string)
    ensures |r| == |s| && forall i :: 0 <= i < |s| ==> r[i] == UpperChar(s[i])
  {
    if s == [] then [] else [UpperChar(s[0])] + ToUpper(s[1..])
  }

  /** strings.ToLower on ASCII letters; other characters are kept. */
  function ToLower(s: string): (r: string)
    ensures |r| == |s| && forall i :: 0 <= i < |s| ==> r[i] == LowerChar(s[i])
  {
    if s == [] then [] else [LowerChar(s[0])] + ToLower(s[1..])
  }

  /** The number of bytes UTF-8 uses for one Unicode scalar value. */
  function Utf8Width(c: char): nat {
    if c as int < 0x80 then 1
    else if c as int < 0x800 then 2
    else if c as int < 0x10000 then 3
    else 4
  }

  /** Go's len on a string: its length in UTF-8 bytes, between one and four per character. */
  function Utf8Len(s: string): (n: nat)
    ensures |s| <= n <= 4 * |s|
    ensures n == 0 <==> s == []
  {
    if s == [] then 0 else Utf8Width(s[0]) + Utf8Len(s[1..])
  }

  /** A text of ASCII characters has as many bytes as characters. */
  lemma {:induction false} Utf8LenAscii(s: string)
    requires forall i :: 0 <= i < |s| ==> s[i] as int < 0x80
    ensures Utf8Len(s) == |s|
  {
    if s != [] {
      Utf8LenAscii(s[1..]);
    }
  }

  /** strings.TrimRight with a one-character cut set. */
  function TrimRight(s: string, c: char): (r: string)
    ensures |r| <= |s| && r == s[..|r|]
    ensures |r| == 0 || r[|r| - 1] != c
    ensures forall i :: |r| <= i < |s| ==> s[i] == c
    decreases |s|
  {
    if |s| > 0 && s[|s| - 1] == c then TrimRight(s[..|s| - 1], c) else s
  }

  /** strings.Repeat. */
  function Repeat(s: string, n: nat): (r: string)
    ensures |r| == n * |s|
  {
    if n == 0 then "" else s + Repeat(s, n - 1)
  }

  function DigitChar(d: nat): char
    requires d < 10
  {
    (48 + d) as char
  }

  /** The decimal digits of `n`, most significant first. */
  function NatToString(n: nat): (r: string)
    ensures |r| >= 1 && forall i :: 0 <= i < |r| ==> '0' <= r[i] <= '9'
    decreases n
  {
    if n < 10 then [DigitChar(n)] else NatToString(n / 10) + [DigitChar(n % 10)]
  }

  /** strconv.Itoa, and the `%v`/`%d` form of an integer. */
  function Itoa(i: int): string {
    if i < 0 then "-" + NatToString(-i) else NatToString(i)
  }

  /** Distinct numbers have distinct decimal forms. */
  lemma {:induction false} NatToStringInjective(a: nat, b: nat)
    requires NatToString(a) == NatToString(b)
    ensures a == b
    decreases a
  {
    var sa, sb := NatToString(a), NatToString(b);
    if a >= 10 && b >= 10 {
      assert sa[..|sa| - 1] == NatToString(a / 10);
      assert sb[..|sb| - 1] == NatToString(b / 10);
      NatToStringInjective(a / 10, b / 10);
      assert DigitChar(a % 10) == sa[|sa| - 1] == sb[|sb| - 1] == DigitChar(b % 10);
    } else if a < 10 && b < 10 {
      assert DigitChar(a) == sa[0] == sb[0] == DigitChar(b);
    }
  }

  lemma ItoaInjective(a: int, b: int)
    requires Itoa(a) == Itoa(b)
    ensures a == b
  {
    if a < 0 && b < 0 {
      assert Itoa(a)[1..] == NatToString(-a);
      assert Itoa(b)[1..] == NatToString(-b);
      NatToStringInjective(-a, -b);
    } else if a >= 0 && b >= 0 {
      NatToStringInjective(a, b);
    } else {
      NatToStringHead(if a < 0 then b else a);
      assert false;
    }
  }

  lemma NatToStringHead(n: nat)
    ensures NatToString(n)[0] != '-'
  {
  }

  /** The `%q` form of a string; escaping of special characters is not modelled. */
  function Quote(s: string): string {
    "\"" + s + "\""
  }

  function FormatBool(b: bool): string {
    if b then "true" else "false"
  }

  /** strconv.ParseBool: the spellings Go accepts, and its error otherwise. */
  function ParseBool(s: string): (r: Result<bool>)
    ensures r == Ok(true) <==> s in {"1", "t", "T", "TRUE", "true", "True"}
    ensures r == Ok(false) <==> s in {"0", "f", "F", "FALSE", "false", "False"}
  {
    if s in {"1", "t", "T", "TRUE", "true", "True"} then Ok(true)
    else if s in {"0", "f", "F", "FALSE", "false", "False"} then Ok(false)
    else Err("strconv.ParseBool: parsing " + Quote(s) + ": invalid syntax")
  }

  lemma ParseFormatBool(b: bool)
    ensures ParseBool(FormatBool(b)) == Ok(b)
  {
  }

  /** The `%v` form of a string slice: "[a b c]". */
  function FormatList(items: seq<string>): string {
    "[" + Join(items, " ") + "]"
  }

  /** A text without the separator character splits into itself alone. */
  lemma {:induction false} SplitNoSep(s: string, c: char)
    requires c !in s
    ensures Split(s, [c]) == [s]
    decreases |s|
  {
    if |s| >= 1 {
      assert s[..1] != [c] by { assert s[..1][0] == s[0]; }
      SplitNoSep(s[1..], c);
      assert [s[0]] + s[1..] == s;
    }
  }

  /** Splitting at a first separator: the text before it, then the split of the rest. */
  lemma {:induction false} SplitAtFirst(p: string, c: char, t: string)
    requires c !in p
    ensures Split(p + [c] + t, [c]) == [p] + Split(t, [c])
    decreases |p|
  {
    var s := p + [c] + t;
    if |p| == 0 {
      assert s == [c] + t && s[..1] == [c] && s[1..] == t;
    } else {
      assert s[..1] != [c] by { assert s[..1][0] == p[0]; }
      assert s[1..] == p[1..] + [c] + t;
      SplitAtFirst(p[1..], c, t);
      assert [s[0]] + p[1..] == p;
    }
  }

  /** The parts of a split on one character never contain that character. */
  lemma {:induction false} SplitPartsNoSep(s: string, c: char)
    ensures forall i :: 0 <= i < |Split(s, [c])| ==> c !in Split(s, [c])[i]
    decreases |s|
  {
    if |s| >= 1 {
      SplitPartsNoSep(s[1..], c);
      if s[..1] == [c] {
        assert s[0] == c;
      } else {
        assert s[0] != c by { assert s[..1] == [s[0]]; }
        var rest := Split(s[1..], [c]);
        assert Split(s, [c]) == [[s[0]] + rest[0]] + rest[1..];
        forall i | 0 <= i < |Split(s, [c])| ensures c !in Split(s, [c])[i] {
          if i > 0 {
            assert Split(s, [c])[i] == rest[i];
          }
        }
      }
    }
  }

  /** Split inverts Join for parts free of the separator character. */
  lemma {:induction false} SplitJoin(parts: seq<string>, c: char)
    requires |parts| >= 1 && forall i :: 0 <= i < |parts| ==> c !in parts[i]
    ensures Split(Join(parts, [c]), [c]) == parts
    decreases |parts|
  {
    if |parts| == 1 {
      SplitNoSep(parts[0], c);
    } else {
      SplitJoin(parts[1..], c);
      SplitAtFirst(parts[0], c, Join(parts[1..], [c]));
      assert [parts[0]] + parts[1..] == parts;
    }
  }
}
