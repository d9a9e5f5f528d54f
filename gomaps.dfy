/** Ranging over a Go map: the keys come in an order the language leaves unspecified. */
module GoMaps {
  /** An order of visiting a map: every key exactly once, and nothing else. */
  ghost predicate VisitsEachKey<V>(m: map<string, V>, order: seq<string>) {
    forall k :: multiset(order)[k] == (if k in m then 1 else 0)
  }

  /** Two orders that each visit every key once are permutations of each other. */
  lemma VisitOrdersPermute<V>(m: map<string, V>, o1: seq<string>, o2: seq<string>)
    requires VisitsEachKey(m, o1) && VisitsEachKey(m, o2)
    ensures multiset(o1) == multiset(o2)
  {
    forall k ensures multiset(o1)[k] == multiset(o2)[k] {
    }
  }

  /** Every key visited is a key of the map. */
  lemma VisitedAreKeys<V>(m: map<string, V>, order: seq<string>)
    requires VisitsEachKey(m, order)
    ensures forall j :: 0 <= j < |order| ==> order[j] in m
  {
    forall j | 0 <= j < |order| ensures order[j] in m {
      assert multiset(order)[order[j]] > 0;
    }
  }

  /** Every element of a permutation of a sequence of keys is a key. */
  lemma MembersFollowMultiset<V>(data: map<string, V>, o1: seq<string>, o2: seq<string>)
    requires forall j :: 0 <= j < |o1| ==> o1[j] in data
    requires multiset(o1) == multiset(o2)
    ensures forall j :: 0 <= j < |o2| ==> o2[j] in data
  {
    forall j | 0 <= j < |o2| ensures o2[j] in data {
      assert o2[j] in multiset(o2);
      assert o2[j] in multiset(o1);
      var i :| 0 <= i < |o1| && o1[i] == o2[j];
    }
  }

  /** A sequence is its part before j, its element at j and its part after j. */
  lemma SplitAt(s: seq<string>, j: nat)
    requires j < |s|
    ensures s == s[..j] + [s[j]] + s[j + 1..]
  {
  }

  /** Taking the same element out of two permutations leaves permutations. */
  lemma RemoveMatched(o1: seq<string>, o2: seq<string>, j: nat)
    requires |o1| > 0 && j < |o2| && o2[j] == o1[0] && multiset(o1) == multiset(o2)
    ensures multiset(o1[1..]) == multiset(o2[..j] + o2[j + 1..])
  {
    var x, a, b := o1[0], o2[..j], o2[j + 1..];
    SplitAt(o2, j);
    SplitAt(o1, 0);
    assert multiset(o2) == multiset(a) + multiset{x} + multiset(b);
    assert multiset(o1) == multiset{x} + multiset(o1[1..]);
    forall k ensures multiset(o1[1..])[k] == multiset(a + b)[k] {
      assert multiset(o1)[k] == multiset(o2)[k];
    }
  }
}
