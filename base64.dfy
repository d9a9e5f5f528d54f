/**
 * The standard base64 encoding of RFC 4648, section 4: the 64-character
 * alphabet "A-Z a-z 0-9 + /", with "=" padding the last group to four characters.
 */
module Base64 {
  import opened Wrappers
  import GoStrings

  newtype byte = x: int | 0 <= x < 256

  /** The character for a six-bit value. */
  function Char(i: int): (c: char)
    requires 0 <= i < 64
    ensures c != '=' && c != '\r' && c != '\n'
  {
    if i < 26 then (65 + i) as char
    else if i < 52 then (97 + i - 26) as char
    else if i < 62 then (48 + i - 52) as char
    else if i == 62 then '+'
    else '/'
  }

  /** The six-bit value of an alphabet character; None for any other character, "=" included. */
  function Value(c: char): (v: Option<int>)
    ensures v.Some? ==> 0 <= v.value < 64 && Char(v.value) == c
  {
    if 'A' <= c <= 'Z' then Some(c as int - 65)
    else if 'a' <= c <= 'z' then Some(c as int - 97 + 26)
    else if '0' <= c <= '9' then Some(c as int - 48 + 52)
    else if c == '+' then Some(62)
    else if c == '/' then Some(63)
    else None
  }

  lemma ValueOfChar(i: int)
    requires 0 <= i < 64
    ensures Value(Char(i)) == Some(i)
  {
  }

  /** The four characters of a group of three bytes. */
  function EncodeGroup(b0: byte, b1: byte, b2: byte): string {
    [Char(b0 as int / 4), Char((b0 as int % 4) * 16 + b1 as int / 16),
     Char((b1 as int % 16) * 4 + b2 as int / 64), Char(b2 as int % 64)]
  }

  /** base64.StdEncoding.EncodeToString. */
  function Encode(b: seq<byte>): (s: string)
    ensures |s| == 4 * ((|b| + 2) / 3)
    decreases |b|
  {
    if |b| == 0 then ""
    else if |b| == 1 then EncodeGroup(b[0], 0, 0)[..2] + "=="
    else if |b| == 2 then EncodeGroup(b[0], b[1], 0)[..3] + "="
    else
      var rest := Encode(b[3..]);
      EncodedLength(|b|);
      EncodeGroup(b[0], b[1], b[2]) + rest
  }

  lemma EncodedLength(n: nat)
    requires n >= 3
    ensures 4 + 4 * ((n - 3 + 2) / 3) == 4 * ((n + 2) / 3)
  {
  }

  /** The three bytes a group of four six-bit values stands for; unused trailing bits are dropped. */
  function DecodeGroup(c0: int, c1: int, c2: int, c3: int): (r: seq<byte>)
    requires 0 <= c0 < 64 && 0 <= c1 < 64 && 0 <= c2 < 64 && 0 <= c3 < 64
    ensures |r| == 3
  {
    [(c0 * 4 + c1 / 16) as byte, ((c1 % 16) * 16 + c2 / 4) as byte, ((c2 % 4) * 64 + c3) as byte]
  }

  function CorruptInput(offset: nat): string {
    "illegal base64 data at input byte " + GoStrings.Itoa(offset)
  }

  /**
   * Decoding of text without line breaks, four characters at a time. A group
   * may end in "==" or "=" only if it is the last; anything else that is not
   * four alphabet characters is an error. `at` is the text's offset in the input.
   */
  function DecodeGroups(t: string, at: nat): (r: Result<seq<byte>>)
    decreases |t|
  {
    if |t| == 0 then Ok([])
    else if |t| < 4 then Err(CorruptInput(at))
    else
      var v0, v1, v2, v3 := Value(t[0]), Value(t[1]), Value(t[2]), Value(t[3]);
      if v0.Some? && v1.Some? && v2.Some? && v3.Some? then
        match DecodeGroups(t[4..], at + 4)
        case Err(e) => Err(e)
        case Ok(rest) => Ok(DecodeGroup(v0.value, v1.value, v2.value, v3.value) + rest)
      else if |t| == 4 && v0.Some? && v1.Some? && t[2] == '=' && t[3] == '=' then
        Ok(DecodeGroup(v0.value, v1.value, 0, 0)[..1])
      else if |t| == 4 && v0.Some? && v1.Some? && v2.Some? && t[3] == '=' then
        Ok(DecodeGroup(v0.value, v1.value, v2.value, 0)[..2])
      else Err(CorruptInput(at))
  }

  /** The input with every '\r' and '\n' removed, as the Go decoder skips them. */
  function StripNewlines(s: string): (t: string)
    ensures |t| <= |s|
    ensures forall i :: 0 <= i < |t| ==> t[i] != '\r' && t[i] != '\n'
  {
    if |s| == 0 then ""
    else (if s[0] == '\r' || s[0] == '\n' then "" else [s[0]]) + StripNewlines(s[1..])
  }

  /** base64.StdEncoding.DecodeString. */
  function Decode(s: string): Result<seq<byte>> {
    DecodeGroups(StripNewlines(s), 0)
  }

  lemma {:induction false} StripNoNewlines(s: string)
    requires forall i :: 0 <= i < |s| ==> s[i] != '\r' && s[i] != '\n'
    ensures StripNewlines(s) == s
    decreases |s|
  {
    if |s| > 0 {
      StripNoNewlines(s[1..]);
    }
  }

  lemma EncodeAlphabet(b: seq<byte>)
    ensures forall i :: 0 <= i < |Encode(b)| ==> Encode(b)[i] != '\r' && Encode(b)[i] != '\n'
    decreases |b|
  {
    if |b| == 1 || |b| == 2 {
      var g := EncodeGroup(b[0], if |b| == 2 then b[1] else 0, 0);
      assert forall i :: 0 <= i < 4 ==> g[i] != '\r' && g[i] != '\n';
    } else if |b| >= 3 {
      EncodeAlphabet(b[3..]);
      assert Encode(b) == EncodeGroup(b[0], b[1], b[2]) + Encode(b[3..]);
    }
  }

  lemma DecodeEncodeGroup(b0: byte, b1: byte, b2: byte)
    ensures DecodeGroup(b0 as int / 4, (b0 as int % 4) * 16 + b1 as int / 16,
      (b1 as int % 16) * 4 + b2 as int / 64, b2 as int % 64) == [b0, b1, b2]
  {
    var x, y, z := b0 as int, b1 as int, b2 as int;
    SplitBelow16(x % 4, y / 16);
    SplitBelow4(y % 16, z / 64);
    assert (x / 4) * 4 + x % 4 == x;
    assert (y / 16) * 16 + y % 16 == y;
    assert (z / 64) * 64 + z % 64 == z;
  }

  /** A digit above one below 16 splits back into the two. */
  lemma SplitBelow16(h: int, l: int)
    requires 0 <= l < 16
    ensures (h * 16 + l) / 16 == h && (h * 16 + l) % 16 == l
  {
  }

  /** A digit above one below 4 splits back into the two. */
  lemma SplitBelow4(h: int, l: int)
    requires 0 <= l < 4
    ensures (h * 4 + l) / 4 == h && (h * 4 + l) % 4 == l
  {
  }

  /** A single byte is encoded as two characters and "==", and decodes back. */
  lemma DecodeOneByte(b0: byte, at: nat)
    ensures DecodeGroups(Encode([b0]), at) == Ok([b0])
  {
    var g := EncodeGroup(b0, 0, 0);
    var c0, c1 := b0 as int / 4, (b0 as int % 4) * 16;
    ValueOfChar(c0);
    ValueOfChar(c1);
    var t := Encode([b0]);
    assert t == [Char(c0), Char(c1), '=', '='];
    assert Value(t[0]) == Some(c0) && Value(t[1]) == Some(c1) && Value(t[2]).None?;
    var d := DecodeGroup(c0, c1, 0, 0);
    assert d[0] == b0;
    assert DecodeGroups(t, at) == Ok(d[..1]);
    assert d[..1] == [b0];
  }

  /** Two bytes are encoded as three characters and "=", and decode back. */
  lemma DecodeTwoBytes(b0: byte, b1: byte, at: nat)
    ensures DecodeGroups(Encode([b0, b1]), at) == Ok([b0, b1])
  {
    var c0, c1, c2 := b0 as int / 4, (b0 as int % 4) * 16 + b1 as int / 16, (b1 as int % 16) * 4;
    ValueOfChar(c0);
    ValueOfChar(c1);
    ValueOfChar(c2);
    var t := Encode([b0, b1]);
    assert t == [Char(c0), Char(c1), Char(c2), '='];
    assert Value(t[0]) == Some(c0) && Value(t[1]) == Some(c1) && Value(t[2]) == Some(c2) && Value(t[3]).None?;
    var d := DecodeGroup(c0, c1, c2, 0);
    assert d[0] == b0 && d[1] == b1;
    assert DecodeGroups(t, at) == Ok(d[..2]);
    assert d[..2] == [b0, b1];
  }

  /** A full group decodes to its three bytes, ahead of whatever the rest decodes to. */
  lemma DecodeFullGroup(b0: byte, b1: byte, b2: byte, u: string, at: nat, rest: seq<byte>)
    requires DecodeGroups(u, at + 4) == Ok(rest)
    ensures DecodeGroups(EncodeGroup(b0, b1, b2) + u, at) == Ok([b0, b1, b2] + rest)
  {
    var c0, c1 := b0 as int / 4, (b0 as int % 4) * 16 + b1 as int / 16;
    var c2, c3 := (b1 as int % 16) * 4 + b2 as int / 64, b2 as int % 64;
    ValueOfChar(c0);
    ValueOfChar(c1);
    ValueOfChar(c2);
    ValueOfChar(c3);
    DecodeEncodeGroup(b0, b1, b2);
    var t := EncodeGroup(b0, b1, b2) + u;
    assert t[..4] == [Char(c0), Char(c1), Char(c2), Char(c3)] && t[4..] == u;
    assert Value(t[0]) == Some(c0) && Value(t[1]) == Some(c1) && Value(t[2]) == Some(c2) && Value(t[3]) == Some(c3);
  }

  /** Decoding the groups of an encoding gives back the bytes. */
  lemma {:induction false} DecodeGroupsEncode(b: seq<byte>, at: nat)
    ensures DecodeGroups(Encode(b), at) == Ok(b)
    decreases |b|
  {
    if |b| == 1 {
      assert b == [b[0]];
      DecodeOneByte(b[0], at);
    } else if |b| == 2 {
      assert b == [b[0], b[1]];
      DecodeTwoBytes(b[0], b[1], at);
    } else if |b| >= 3 {
      DecodeGroupsEncode(b[3..], at + 4);
      DecodeGroupsEncodeStep(b, at);
    }
  }

  /** The step for three bytes or more: the first group, then the rest. */
  lemma DecodeGroupsEncodeStep(b: seq<byte>, at: nat)
    requires |b| >= 3 && DecodeGroups(Encode(b[3..]), at + 4) == Ok(b[3..])
    ensures DecodeGroups(Encode(b), at) == Ok(b)
  {
    assert Encode(b) == EncodeGroup(b[0], b[1], b[2]) + Encode(b[3..]);
    DecodeFullGroup(b[0], b[1], b[2], Encode(b[3..]), at, b[3..]);
    assert b == [b[0], b[1], b[2]] + b[3..];
  }

  /** Round trip: decoding what Encode produced gives back the same bytes, without error. */
  lemma DecodeEncode(b: seq<byte>)
    ensures Decode(Encode(b)) == Ok(b)
  {
    EncodeAlphabet(b);
    StripNoNewlines(Encode(b));
    DecodeGroupsEncode(b, 0);
  }

  /** Test vectors of section 10 of RFC 4648. */
  lemma Rfc4648Vectors()
    ensures Encode([]) == ""
    ensures Encode([102]) == "Zg=="
    ensures Encode([102, 111]) == "Zm8="
    ensures Encode([102, 111, 111]) == "Zm9v"
  {
  }

  /**
   * The Go decoder: an unpadded tail is an error, unused trailing bits are
   * ignored, line breaks are skipped, and nothing may follow the padding.
   */
  lemma DecodeEdgeCases()
    ensures Decode("QQ").Err?
    ensures Decode("QR==") == Ok([65])
    ensures Decode("QQ==\n") == Ok([65])
    ensures Decode("QQ==QQ==").Err?
  {
    DecodeUnpadded();
    DecodeTrailingBits();
    DecodeSkipsNewline();
    DecodeAfterPadding();
  }

  lemma DecodeUnpadded()
    ensures Decode("QQ").Err?
  {
    assert StripNewlines("QQ") == "QQ";
  }

  lemma DecodeTrailingBits()
    ensures Decode("QR==") == Ok([65])
  {
    assert StripNewlines("QR==") == "QR==";
    assert Value('Q') == Some(16) && Value('R') == Some(17);
    assert DecodeGroup(16, 17, 0, 0)[..1] == [65];
  }

  lemma DecodeSkipsNewline()
    ensures Decode("QQ==\n") == Ok([65])
  {
    assert StripNewlines("QQ==\n") == "QQ==";
    assert Value('Q') == Some(16);
    assert DecodeGroup(16, 16, 0, 0)[..1] == [65];
  }

  lemma DecodeAfterPadding()
    ensures Decode("QQ==QQ==").Err?
  {
    assert StripNewlines("QQ==QQ==") == "QQ==QQ==";
  }
}
