/** The helper functions the gitops templates call: lists, indentation, defaults, set differences, base64. */
module Template {
  import opened Wrappers
  import opened GoStrings
  import Base64

  /** A template argument: nil, or a string, integer or boolean. */
  datatype Value = Nil | Str(s: string) | Int(i: int) | Bool(b: bool)

  /** The `%v` form of a non-nil value. */
  function FormatV(v: Value): string
    requires v != Nil
  {
    match v
    case Str(s) => s
    case Int(i) => Itoa(i)
    case Bool(b) => FormatBool(b)
  }

  /** seq: the integers from `start` to `end` inclusive, in increasing order. */
  method Seq(start: int, end: int) returns (s: seq<int>)
    ensures |s| == (if start <= end then end - start + 1 else 0)
    ensures forall k :: 0 <= k < |s| ==> s[k] == start + k
  {
    s := [];
    var i := start;
    while i <= end
      invariant |s| == i - start
      invariant start <= end ==> i <= end + 1
      invariant start > end ==> i == start
      invariant forall k :: 0 <= k < |s| ==> s[k] == start + k
      decreases end - i
    {
      s := s + [i];
      i := i + 1;
    }
  }

  /**
   * indent: `spaces` blanks in front of the text and after every newline in
   * it. A negative count makes strings.Repeat panic, so the count is a nat.
   */
  function Indent(spaces: nat, v: string): (r: string)
    ensures r == Repeat(" ", spaces) + Join(Split(v, "\n"), "\n" + Repeat(" ", spaces))
    ensures |r| == |v| + spaces * (1 + Count(v, "\n"))
  {
    var pad := Repeat(" ", spaces);
    ReplaceAllIsSplitJoin(v, "\n", "\n" + pad);
    ReplaceAllLength(v, "\n", "\n" + pad);
    assert spaces * (1 + Count(v, "\n")) == spaces + Count(v, "\n") * spaces;
    pad + ReplaceAll(v, "\n", "\n" + pad)
  }

  /** nindent: a newline, then the indented text. */
  function NIndent(spaces: nat, v: string): (r: string)
    ensures |r| == 1 + |v| + spaces * (1 + Count(v, "\n")) && r[0] == '\n' && r[1..] == Indent(spaces, v)
  {
    "\n" + Indent(spaces, v)
  }

  /** A text without newlines is only prefixed. */
  lemma IndentSingleLine(spaces: nat, v: string)
    requires !Contains(v, "\n")
    ensures Indent(spaces, v) == Repeat(" ", spaces) + v
  {
    ReplaceAllAbsent(v, "\n", "\n" + Repeat(" ", spaces));
  }

  /** The non-nil values, in their original order. */
  function NonNil(v: seq<Value>): (r: seq<Value>)
    ensures |r| <= |v|
    ensures forall i :: 0 <= i < |r| ==> r[i] != Nil
    ensures forall x :: x != Nil ==> multiset(r)[x] == multiset(v)[x]
    decreases |v|
  {
    if |v| == 0 then []
    else
      assert v == [v[0]] + v[1..];
      (if v[0] == Nil then [] else [v[0]]) + NonNil(v[1..])
  }

  /** A list without nils is kept as it is. */
  lemma {:induction false} NonNilNoNil(v: seq<Value>)
    requires forall i :: 0 <= i < |v| ==> v[i] != Nil
    ensures NonNil(v) == v
    decreases |v|
  {
    if |v| > 0 {
      NonNilNoNil(v[1..]);
    }
  }

  lemma NonNilSnoc(v: seq<Value>, x: Value)
    ensures NonNil(v + [x]) == NonNil(v) + (if x == Nil then [] else [x])
    decreases |v|
  {
    var w := v + [x];
    var tail := if x == Nil then [] else [x];
    if |v| == 0 {
      assert w[1..] == [];
    } else {
      var head := if v[0] == Nil then [] else [v[0]];
      assert w[0] == v[0] && w[1..] == v[1..] + [x];
      NonNilSnoc(v[1..], x);
      calc {
        NonNil(w);
        head + NonNil(w[1..]);
        head + (NonNil(v[1..]) + tail);
        { ValuesAssoc(head, NonNil(v[1..]), tail); }
        head + NonNil(v[1..]) + tail;
        NonNil(v) + tail;
      }
    }
  }

  lemma ValuesAssoc(a: seq<Value>, b: seq<Value>, c: seq<Value>)
    ensures a + (b + c) == a + b + c
  {
  }

  /** removeNilElements: the loop over the arguments, keeping the non-nil ones. */
  method RemoveNilElements(v: seq<Value>) returns (newSlice: seq<Value>)
    ensures newSlice == NonNil(v)
  {
    newSlice := [];
    for k := 0 to |v|
      invariant newSlice == NonNil(v[..k])
    {
      NonNilSnoc(v[..k], v[k]);
      assert v[..k + 1] == v[..k] + [v[k]];
      if v[k] != Nil {
        newSlice := newSlice + [v[k]];
      }
    }
    assert v[..|v|] == v;
  }

  /** The `%v` forms of non-nil values. */
  function FormatAll(v: seq<Value>): (r: seq<string>)
    requires forall i :: 0 <= i < |v| ==> v[i] != Nil
    ensures |r| == |v| && forall i :: 0 <= i < |v| ==> r[i] == FormatV(v[i])
  {
    seq(|v|, i requires 0 <= i < |v| => FormatV(v[i]))
  }

  /** The strings one after another. */
  function Flatten(xs: seq<string>): string
    decreases |xs|
  {
    if |xs| == 0 then "" else xs[0] + Flatten(xs[1..])
  }

  /** The text with every `c` removed. */
  function DropChar(s: string, c: char): (r: string)
    ensures forall i :: 0 <= i < |r| ==> r[i] != c
    decreases |s|
  {
    if |s| == 0 then "" else (if s[0] == c then "" else [s[0]]) + DropChar(s[1..], c)
  }

  lemma {:induction false} DropCharAppend(a: string, b: string, c: char)
    ensures DropChar(a + b, c) == DropChar(a, c) + DropChar(b, c)
    decreases |a|
  {
    if |a| == 0 {
      assert a + b == b;
    } else {
      assert (a + b)[0] == a[0] && (a + b)[1..] == a[1..] + b;
      DropCharAppend(a[1..], b, c);
    }
  }

  /** Replacing a one-character pattern by nothing removes that character. */
  lemma {:induction false} ReplaceAllDeletes(s: string, c: char)
    ensures ReplaceAll(s, [c], "") == DropChar(s, c)
    decreases |s|
  {
    if |s| > 0 {
      ReplaceAllDeletes(s[1..], c);
    }
  }

  /** Removing `c` from items joined by `c` removes it from their concatenation. */
  lemma {:induction false} DropCharJoin(xs: seq<string>, c: char)
    ensures DropChar(Join(xs, [c]), c) == DropChar(Flatten(xs), c)
    decreases |xs|
  {
    if |xs| == 1 {
      assert Flatten(xs) == xs[0] + Flatten([]) == xs[0];
    } else if |xs| > 1 {
      DropCharJoin(xs[1..], c);
      DropCharAppend(xs[0] + [c], Join(xs[1..], [c]), c);
      DropCharAppend(xs[0], [c], c);
      DropCharAppend(xs[0], Flatten(xs[1..]), c);
    }
  }

  /**
   * concat: the verb string "%v %v … %v" formats the non-nil arguments
   * separated by single spaces; then every space is removed, including those
   * inside the arguments.
   */
  function Concat(v: seq<Value>): (r: string)
    ensures r == DropChar(Flatten(FormatAll(NonNil(v))), ' ')
    ensures forall i :: 0 <= i < |r| ==> r[i] != ' '
  {
    var args := NonNil(v);
    var formatted := Join(FormatAll(args), " ");
    ReplaceAllDeletes(formatted, ' ');
    DropCharJoin(FormatAll(args), ' ');
    ReplaceAll(formatted, " ", "")
  }

  /** empty: nil, "", 0 and false are empty. */
  predicate Empty(v: Value) {
    match v
    case Nil => true
    case Str(s) => |s| == 0
    case Int(i) => i == 0
    case Bool(b) => !b
  }

  /** dfault: the first given value unless there is none or it is empty; then the default. */
  function Dfault(d: Value, given: seq<Value>): (r: Value)
    ensures |given| == 0 || Empty(given[0]) ==> r == d
    ensures |given| > 0 && !Empty(given[0]) ==> r == given[0]
    ensures r == d || (r == given[0] && !Empty(r))
  {
    if |given| == 0 || Empty(given[0]) then d else given[0]
  }

  /** The elements of `a` that are not in `b`, in the order of `a`, repeats included. */
  function Diff(a: seq<string>, b: seq<string>): (r: seq<string>)
    ensures forall x :: x in r <==> x in a && x !in b
    ensures |r| <= |a|
    decreases |a|
  {
    if |a| == 0 then []
    else
      assert a == [a[0]] + a[1..];
      (if a[0] in b then [] else [a[0]]) + Diff(a[1..], b)
  }

  /** Nothing is left over exactly when every element of `a` is in `b`. */
  lemma DiffEmpty(a: seq<string>, b: seq<string>)
    ensures Diff(a, b) == [] <==> forall i :: 0 <= i < |a| ==> a[i] in b
  {
    var d := Diff(a, b);
    if d != [] {
      assert d[0] in d;
    }
  }

  lemma {:induction false} DiffSnoc(a: seq<string>, x: string, b: seq<string>)
    ensures Diff(a + [x], b) == Diff(a, b) + (if x in b then [] else [x])
    decreases |a|
  {
    var tail := if x in b then [] else [x];
    if |a| == 0 {
      assert a + [x] == [x];
      assert Diff([x], b) == tail + Diff([], b);
    } else {
      var head := if a[0] in b then [] else [a[0]];
      var ax := a + [x];
      assert ax[0] == a[0] && ax[1..] == a[1..] + [x];
      DiffSnoc(a[1..], x, b);
      calc {
        Diff(ax, b);
        head + Diff(a[1..] + [x], b);
        head + (Diff(a[1..], b) + tail);
        (head + Diff(a[1..], b)) + tail;
        Diff(a, b) + tail;
      }
    }
  }

  /**
   * The inner loop: `found` ends true on a match and false after a
   * non-matching element; over an empty list it keeps its earlier value.
   */
  method ScanFor(x: string, l: seq<string>, found: bool) returns (f: bool)
    ensures |l| > 0 ==> f == (x in l)
    ensures |l| == 0 ==> f == found
  {
    f := found;
    var j := 0;
    while j < |l|
      invariant 0 <= j <= |l|
      invariant j == 0 ==> f == found
      invariant j > 0 ==> !f && x !in l[..j]
    {
      if x == l[j] {
        f := true;
        break;
      } else {
        f := false;
      }
      assert l[..j + 1] == l[..j] + [l[j]];
      j := j + 1;
    }
    assert j == |l| ==> l[..j] == l;
  }

  /** The outer loop: appends each element of `b` that the scan of `l` does not find. */
  method AppendMissing(diff: seq<string>, b: seq<string>, l: seq<string>, found: bool) returns (d: seq<string>, f: bool)
    requires |l| == 0 ==> !found
    ensures d == diff + Diff(b, l)
    ensures |l| == 0 ==> !f
  {
    d, f := diff, found;
    for k := 0 to |b|
      invariant d == diff + Diff(b[..k], l)
      invariant |l| == 0 ==> !f
    {
      f := ScanFor(b[k], l, f);
      AppendMissingStep(diff, b, l, k);
      if !f {
        d := d + [b[k]];
      }
    }
    assert b[..|b|] == b;
  }

  /** One more element of `b` adds itself to the prefix's leftovers exactly when `l` lacks it. */
  lemma AppendMissingStep(diff: seq<string>, b: seq<string>, l: seq<string>, k: nat)
    requires k < |b|
    ensures diff + Diff(b[..k + 1], l) == diff + Diff(b[..k], l) + (if b[k] in l then [] else [b[k]])
  {
    assert b[..k + 1] == b[..k] + [b[k]];
    DiffSnoc(b[..k], b[k], l);
  }

  /**
   * uniqueSlice: for equal lengths, the elements of each list missing from
   * the other, first list first; otherwise the elements of the longer list
   * missing from the shorter one.
   */
  method UniqueSlice(s1: seq<string>, s2: seq<string>) returns (diff: seq<string>)
    ensures |s1| == |s2| ==> diff == Diff(s1, s2) + Diff(s2, s1)
    ensures |s1| > |s2| ==> diff == Diff(s1, s2)
    ensures |s1| < |s2| ==> diff == Diff(s2, s1)
  {
    var b: seq<string> := [];
    var l: seq<string> := [];
    diff := [];
    if |s1| > |s2| {
      b, l := s1, s2;
    }
    if |s1| < |s2| {
      b, l := s2, s1;
    }
    var found := false;
    if |s1| == |s2| {
      diff, found := AppendMissing(diff, s1, s2, found);
      diff, found := AppendMissing(diff, s2, s1, found);
    }
    if |s1| != |s2| {
      diff, found := AppendMissing(diff, b, l, found);
    }
  }

  /**
   * leftUniqueSlice: for equal lengths, the elements of the second list
   * missing from the first; otherwise as uniqueSlice.
   */
  method LeftUniqueSlice(s1: seq<string>, s2: seq<string>) returns (diff: seq<string>)
    ensures |s1| == |s2| ==> diff == Diff(s2, s1)
    ensures |s1| > |s2| ==> diff == Diff(s1, s2)
    ensures |s1| < |s2| ==> diff == Diff(s2, s1)
  {
    var b: seq<string> := [];
    var l: seq<string> := [];
    diff := [];
    if |s1| > |s2| {
      b, l := s1, s2;
    }
    if |s1| < |s2| {
      b, l := s2, s1;
    }
    var found := false;
    if |s1| == |s2| {
      diff, found := AppendMissing(diff, s2, s1, found);
    }
    if |s1| != |s2| {
      diff, found := AppendMissing(diff, b, l, found);
    }
  }

  /** For equal lengths uniqueSlice lists exactly the elements in one list but not both. */
  lemma UniqueSliceSymmetric(s1: seq<string>, s2: seq<string>, x: string)
    requires |s1| == |s2|
    ensures x in Diff(s1, s2) + Diff(s2, s1) <==> (x in s1) != (x in s2)
  {
  }

  /** replace: strings.Replace with n = -1, every non-overlapping occurrence, leftmost first. */
  function Replace(oldText: string, newText: string, src: string): (r: string)
    ensures |oldText| > 0 ==> r == Join(Split(src, oldText), newText)
    ensures |oldText| > 0 ==> |r| == |src| + Count(src, oldText) * (|newText| - |oldText|)
    ensures !Contains(src, oldText) ==> r == src
  {
    ReplaceAllFacts(src, oldText, newText);
    ReplaceAll(src, oldText, newText)
  }

  lemma ReplaceAllFacts(src: string, oldText: string, newText: string)
    ensures |oldText| > 0 ==> ReplaceAll(src, oldText, newText) == Join(Split(src, oldText), newText)
    ensures |oldText| > 0 ==>
      |ReplaceAll(src, oldText, newText)| == |src| + Count(src, oldText) * (|newText| - |oldText|)
    ensures !Contains(src, oldText) ==> ReplaceAll(src, oldText, newText) == src
  {
    if |oldText| > 0 {
      ReplaceAllIsSplitJoin(src, oldText, newText);
      ReplaceAllLength(src, oldText, newText);
    }
    if !Contains(src, oldText) {
      ReplaceAllAbsent(src, oldText, newText);
    }
  }

  /** b64enc: the bytes of the Go string, encoded. */
  function Base64Encode(v: seq<Base64.byte>): (r: string)
    ensures |r| == 4 * ((|v| + 2) / 3)
  {
    Base64.Encode(v)
  }

  /** The bytes of an ASCII text. */
  function TextBytes(s: string): (b: seq<Base64.byte>)
    ensures |b| == |s|
  {
    seq(|s|, i requires 0 <= i < |s| => (s[i] as int % 256) as Base64.byte)
  }

  /** b64dec: the decoded bytes, or the text of the decoder's error in their place. */
  function Base64Decode(v: string): (r: seq<Base64.byte>)
    ensures Base64.Decode(v).Ok? ==> r == Base64.Decode(v).value
    ensures Base64.Decode(v).Err? ==> r == TextBytes(Base64.Decode(v).error)
  {
    match Base64.Decode(v)
    case Ok(data) => data
    case Err(e) => TextBytes(e)
  }

  /** Round trip of the two template helpers. */
  lemma Base64RoundTrip(s: seq<Base64.byte>)
    ensures Base64Decode(Base64Encode(s)) == s
  {
    Base64.DecodeEncode(s);
  }
}
