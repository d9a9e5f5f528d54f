/**
 * Vault initialisation and unsealing: the Kubernetes secret that stores the
 * root token and unseal keys, reading it back, and the order in which keys
 * are handed to Vault.
 */
module Vault {
  import opened Wrappers
  import opened GoStrings
  import opened GoMaps

  const SecretShares := 5
  const SecretThreshold := 3
  const RootTokenKey := "root-token"
  const UnsealKeyPrefix := "root-unseal-key-"

  datatype InitRequest = InitRequest(SecretShares: int, SecretThreshold: int)

  datatype InitResponse = InitResponse(Keys: seq<string>, RootToken: string)

  const EmptyResponse := InitResponse([], "")

  /** The secret key under which the i-th unseal key (counting from 1) is stored. */
  function KeyName(i: nat): (name: string)
    ensures HasPrefix(name, UnsealKeyPrefix) && name[16..] == Itoa(i)
  {
    UnsealKeyPrefix + Itoa(i)
  }

  lemma KeyNameInjective(i: nat, j: nat)
    requires KeyName(i) == KeyName(j)
    ensures i == j
  {
    assert KeyName(i)[16..] == Itoa(i);
    assert KeyName(j)[16..] == Itoa(j);
    ItoaInjective(i, j);
  }

  lemma ShortNeverContains(s: string, sub: string)
    requires |s| < |sub|
    ensures !Contains(s, sub)
    decreases |s|
  {
    if |s| > 0 {
      ShortNeverContains(s[1..], sub);
    }
  }

  lemma RootTokenKeyNotSelected()
    ensures !Contains(RootTokenKey, UnsealKeyPrefix)
  {
    ShortNeverContains(RootTokenKey, UnsealKeyPrefix);
  }

  lemma KeyNameSelected(i: nat)
    ensures Contains(KeyName(i), UnsealKeyPrefix)
  {
    ContainsAt(KeyName(i), UnsealKeyPrefix, 0);
  }

  /** The data written to the secret: the root token, then each key under its numbered name. */
  function SecretData(rootToken: string, keys: seq<string>): map<string, string>
    decreases |keys|
  {
    if |keys| == 0 then map[RootTokenKey := rootToken]
    else SecretData(rootToken, keys[..|keys| - 1])[KeyName(|keys|) := keys[|keys| - 1]]
  }

  /** k names one of the first n unseal keys. */
  ghost predicate NumberedKey(k: string, n: nat) {
    exists i :: 1 <= i <= n && k == KeyName(i)
  }

  lemma NumberedKeyStep(k: string, n: nat)
    requires n > 0
    ensures NumberedKey(k, n) <==> NumberedKey(k, n - 1) || k == KeyName(n)
  {
    if NumberedKey(k, n) && k != KeyName(n) {
      var i :| 1 <= i <= n && k == KeyName(i);
      assert 1 <= i <= n - 1 && k == KeyName(i);
    }
    if NumberedKey(k, n - 1) {
      var i :| 1 <= i <= n - 1 && k == KeyName(i);
      assert 1 <= i <= n && k == KeyName(i);
    }
    if k == KeyName(n) {
      assert 1 <= n <= n && k == KeyName(n);
    }
  }

  /** No numbered key is named like an earlier one or like the root token. */
  lemma NewKeyName(n: nat)
    requires n > 0
    ensures KeyName(n) != RootTokenKey
    ensures forall i :: 1 <= i < n ==> KeyName(i) != KeyName(n)
  {
    RootTokenKeyNotSelected();
    KeyNameSelected(n);
    forall i | 1 <= i < n ensures KeyName(i) != KeyName(n) {
      if KeyName(i) == KeyName(n) {
        KeyNameInjective(i, n);
      }
    }
  }

  /** The secret holds exactly "root-token" and one numbered entry per key, each with its value. */
  lemma {:induction false} SecretDataContents(rootToken: string, keys: seq<string>)
    ensures forall k :: k in SecretData(rootToken, keys) <==> (k == RootTokenKey || NumberedKey(k, |keys|))
    ensures RootTokenKey in SecretData(rootToken, keys) && SecretData(rootToken, keys)[RootTokenKey] == rootToken
    ensures forall i :: 1 <= i <= |keys| ==>
      KeyName(i) in SecretData(rootToken, keys) && SecretData(rootToken, keys)[KeyName(i)] == keys[i - 1]
    decreases |keys|
  {
    if |keys| > 0 {
      var n := |keys|;
      var front := keys[..n - 1];
      var d := SecretData(rootToken, front);
      assert SecretData(rootToken, keys) == d[KeyName(n) := keys[n - 1]];
      SecretDataContents(rootToken, front);
      NewKeyName(n);
      forall k ensures k in d[KeyName(n) := keys[n - 1]] <==> (k == RootTokenKey || NumberedKey(k, n)) {
        NumberedKeyStep(k, n);
      }
      forall i | 1 <= i <= n
        ensures KeyName(i) in d[KeyName(n) := keys[n - 1]] && d[KeyName(n) := keys[n - 1]][KeyName(i)] == keys[i - 1]
      {
        if i < n {
          assert front[i - 1] == keys[i - 1];
        }
      }
    }
  }

  /** The HTTP exchange of the init request, after it was sent. */
  datatype InitExchange =
    | ExchangeFailed(error: string)
    | Answered(status: int, body: string, decoded: Result<InitResponse>)

  /** The loop of vaultInit that fills the secret's data. */
  method BuildSecretData(initResponse: InitResponse) returns (dataToWrite: map<string, string>)
    ensures dataToWrite == SecretData(initResponse.RootToken, initResponse.Keys)
  {
    dataToWrite := map[RootTokenKey := initResponse.RootToken];
    for i := 0 to |initResponse.Keys|
      invariant dataToWrite == SecretData(initResponse.RootToken, initResponse.Keys[..i])
    {
      assert initResponse.Keys[..i + 1][..i] == initResponse.Keys[..i];
      dataToWrite := dataToWrite[KeyName(i + 1) := initResponse.Keys[i]];
    }
    assert initResponse.Keys[..|initResponse.Keys|] == initResponse.Keys;
  }

  /** The text vaultInit logs for a non-200 answer; it puts the status where 200 was meant. */
  function NonOkText(status: int, body: string): string {
    "Encountered non " + Itoa(status) + " status code during Vault init: " + body
  }

  /**
   * vaultInit as written, from the request it builds to the secret it writes
   * (None when none is written). On a non-200 answer it returns the variable
   * `err`, which is nil at that point, so the failure is not reported.
   */
  method VaultInitAsWritten(exchange: InitExchange)
    returns (request: InitRequest, initResponse: InitResponse, err: Option<string>, written: Option<map<string, string>>)
    ensures request == InitRequest(SecretShares, SecretThreshold)
    ensures exchange.ExchangeFailed? ==> initResponse == EmptyResponse && err == Some(exchange.error) && written == None
    ensures exchange.Answered? && exchange.status != 200 ==> initResponse == EmptyResponse && err == None && written == None
    ensures exchange.Answered? && exchange.status == 200 && exchange.decoded.Err? ==>
      initResponse == EmptyResponse && err == Some(exchange.decoded.error) && written == None
    ensures exchange.Answered? && exchange.status == 200 && exchange.decoded.Ok? ==>
      initResponse == exchange.decoded.value && err == None &&
      written == Some(SecretData(initResponse.RootToken, initResponse.Keys))
  {
    request := InitRequest(SecretShares, SecretThreshold);
    if exchange.ExchangeFailed? {
      return request, EmptyResponse, Some(exchange.error), None;
    }
    var lastErr: Option<string> := None;
    if exchange.status != 200 {
      return request, EmptyResponse, lastErr, None;
    }
    if exchange.decoded.Err? {
      return request, EmptyResponse, Some(exchange.decoded.error), None;
    }
    initResponse := exchange.decoded.value;
    var dataToWrite := BuildSecretData(initResponse);
    return request, initResponse, None, Some(dataToWrite);
  }

  /**
   * vaultInit as evidently intended: a non-200 answer is an error carrying
   * the logged text. Every other path is the same as in VaultInitAsWritten.
   */
  method VaultInit(exchange: InitExchange)
    returns (request: InitRequest, initResponse: InitResponse, err: Option<string>, written: Option<map<string, string>>)
    ensures request == InitRequest(SecretShares, SecretThreshold)
    ensures err == None <==> exchange.Answered? && exchange.status == 200 && exchange.decoded.Ok?
    ensures err == None ==>
      initResponse == exchange.decoded.value && written == Some(SecretData(initResponse.RootToken, initResponse.Keys))
    ensures err != None ==> initResponse == EmptyResponse && written == None
    ensures exchange.Answered? && exchange.status != 200 ==> err == Some(NonOkText(exchange.status, exchange.body))
  {
    request := InitRequest(SecretShares, SecretThreshold);
    if exchange.ExchangeFailed? {
      return request, EmptyResponse, Some(exchange.error), None;
    }
    if exchange.status != 200 {
      return request, EmptyResponse, Some(NonOkText(exchange.status, exchange.body)), None;
    }
    if exchange.decoded.Err? {
      return request, EmptyResponse, Some(exchange.decoded.error), None;
    }
    initResponse := exchange.decoded.value;
    var dataToWrite := BuildSecretData(initResponse);
    return request, initResponse, None, Some(dataToWrite);
  }

  /** The values of the selected keys, taken in the order given. */
  function Selected(data: map<string, string>, order: seq<string>): (r: seq<string>)
    requires forall j :: 0 <= j < |order| ==> order[j] in data
    decreases |order|
  {
    if |order| == 0 then []
    else (if Contains(order[0], UnsealKeyPrefix) then [data[order[0]]] else []) + Selected(data, order[1..])
  }

  lemma {:induction false} SelectedAppend(data: map<string, string>, a: seq<string>, b: seq<string>)
    requires forall j :: 0 <= j < |a| ==> a[j] in data
    requires forall j :: 0 <= j < |b| ==> b[j] in data
    ensures Selected(data, a + b) == Selected(data, a) + Selected(data, b)
    decreases |a|
  {
    if |a| > 0 {
      assert (a + b)[1..] == a[1..] + b;
      SelectedAppend(data, a[1..], b);
    } else {
      assert a + b == b;
    }
  }

  lemma SelectedRemove(data: map<string, string>, a: seq<string>, x: string, b: seq<string>)
    requires forall j :: 0 <= j < |a| ==> a[j] in data
    requires forall j :: 0 <= j < |b| ==> b[j] in data
    requires x in data
    ensures forall j :: 0 <= j < |a + [x] + b| ==> (a + [x] + b)[j] in data
    ensures forall j :: 0 <= j < |a + b| ==> (a + b)[j] in data
    ensures multiset(Selected(data, a + [x] + b)) == multiset(Selected(data, [x])) + multiset(Selected(data, a + b))
  {
    SelectedAppend(data, a + [x], b);
    SelectedAppend(data, a, [x]);
    SelectedAppend(data, a, b);
  }

  /** The values selected do not depend on the order the keys are visited in, up to their multiset. */
  lemma {:induction false} SelectedPermutation(data: map<string, string>, o1: seq<string>, o2: seq<string>)
    requires forall j :: 0 <= j < |o1| ==> o1[j] in data
    requires multiset(o1) == multiset(o2)
    ensures forall j :: 0 <= j < |o2| ==> o2[j] in data
    ensures multiset(Selected(data, o1)) == multiset(Selected(data, o2))
    decreases |o1|
  {
    MembersFollowMultiset(data, o1, o2);
    if |o1| == 0 {
      assert |multiset(o2)| == 0;
    } else {
      assert o1[0] in multiset(o2);
      var j :| 0 <= j < |o2| && o2[j] == o1[0];
      RemoveMatched(o1, o2, j);
      SelectedPermutation(data, o1[1..], o2[..j] + o2[j + 1..]);
      SelectedPermutationStep(data, o1, o2, j);
    }
  }

  /** Matching the first key of o1 at position j of o2 extends a permutation of the rest. */
  lemma SelectedPermutationStep(data: map<string, string>, o1: seq<string>, o2: seq<string>, j: nat)
    requires forall i :: 0 <= i < |o1| ==> o1[i] in data
    requires forall i :: 0 <= i < |o2| ==> o2[i] in data
    requires |o1| > 0 && j < |o2| && o2[j] == o1[0]
    requires multiset(Selected(data, o1[1..])) == multiset(Selected(data, o2[..j] + o2[j + 1..]))
    ensures multiset(Selected(data, o1)) == multiset(Selected(data, o2))
  {
    var x, a, b := o1[0], o2[..j], o2[j + 1..];
    SplitAt(o2, j);
    SplitAt(o1, 0);
    SelectedRemove(data, a, x, b);
    SelectedAppend(data, [x], o1[1..]);
    calc {
      multiset(Selected(data, o2));
      multiset(Selected(data, [x])) + multiset(Selected(data, a + b));
      multiset(Selected(data, [x])) + multiset(Selected(data, o1[1..]));
      multiset(Selected(data, [x]) + Selected(data, o1[1..]));
      multiset(Selected(data, o1));
    }
  }

  /**
   * fetchVaultExistingSecretData, given what reading the secret returned: a
   * failed read yields an empty response and no error; otherwise the values of
   * keys containing "root-unseal-key-", in the map's visiting order `order`,
   * and the "root-token" value ("" when it is absent).
   */
  method FetchVaultExistingSecretData(read: Result<map<string, string>>)
    returns (initResponse: InitResponse, err: Option<string>, ghost order: seq<string>)
    ensures err == None
    ensures read.Err? ==> initResponse == EmptyResponse
    ensures read.Ok? ==> VisitsEachKey(read.value, order)
    ensures read.Ok? ==>
      (forall j :: 0 <= j < |order| ==> order[j] in read.value) && initResponse.Keys == Selected(read.value, order)
    ensures read.Ok? ==>
      initResponse.RootToken == (if RootTokenKey in read.value then read.value[RootTokenKey] else "")
  {
    order := [];
    if read.Err? {
      return EmptyResponse, None, order;
    }
    var existing := read.value;
    var rkSlice: seq<string> := [];
    var todo := existing.Keys;
    while todo != {}
      invariant todo <= existing.Keys
      invariant forall j :: 0 <= j < |order| ==> order[j] in existing
      invariant forall k :: multiset(order)[k] == (if k in existing.Keys - todo then 1 else 0)
      invariant rkSlice == Selected(existing, order)
      decreases todo
    {
      var key :| key in todo;
      SelectedAppend(existing, order, [key]);
      if Contains(key, UnsealKeyPrefix) {
        rkSlice := rkSlice + [existing[key]];
      }
      order := order + [key];
      todo := todo - {key};
    }
    var rootToken := if RootTokenKey in existing then existing[RootTokenKey] else "";
    return InitResponse(rkSlice, rootToken), None, order;
  }

  /** The secret's keys in the order vaultInit writes them. */
  function WriteOrder(n: nat): (r: seq<string>)
    ensures |r| == n + 1 && r[0] == RootTokenKey
    ensures forall i :: 1 <= i <= n ==> r[i] == KeyName(i)
    decreases n
  {
    if n == 0 then [RootTokenKey] else WriteOrder(n - 1) + [KeyName(n)]
  }

  /** WriteOrder lists no key twice. */
  lemma {:induction false} WriteOrderCounts(n: nat)
    ensures forall k :: multiset(WriteOrder(n))[k] == (if k in WriteOrder(n) then 1 else 0)
    decreases n
  {
    if n > 0 {
      WriteOrderCounts(n - 1);
      var w := WriteOrder(n - 1);
      WriteOrderFresh(n);
      assert WriteOrder(n) == w + [KeyName(n)];
      DistinctSnoc(w, KeyName(n));
    }
  }

  /** Appending a new element to a list without repeats gives a list without repeats. */
  lemma DistinctSnoc(w: seq<string>, x: string)
    requires forall k :: multiset(w)[k] == (if k in w then 1 else 0)
    requires x !in w
    ensures forall k :: multiset(w + [x])[k] == (if k in w + [x] then 1 else 0)
  {
    assert multiset(w + [x]) == multiset(w) + multiset{x};
  }

  /** The n-th key name is not among the names written before it. */
  lemma WriteOrderFresh(n: nat)
    requires n > 0
    ensures KeyName(n) !in WriteOrder(n - 1)
  {
    var w := WriteOrder(n - 1);
    NewKeyName(n);
    forall j | 0 <= j < |w| ensures w[j] != KeyName(n) {
      if j > 0 {
        assert w[j] == KeyName(j);
      }
    }
  }

  /** WriteOrder visits exactly the keys of the secret vaultInit writes. */
  lemma WriteOrderKeys(rootToken: string, keys: seq<string>)
    ensures forall k :: k in WriteOrder(|keys|) <==> k in SecretData(rootToken, keys)
  {
    SecretDataContents(rootToken, keys);
    var w := WriteOrder(|keys|);
    forall k ensures k in w <==> k in SecretData(rootToken, keys) {
      if k in w {
        var j :| 0 <= j < |w| && w[j] == k;
        if j > 0 {
          assert 1 <= j <= |keys| && k == KeyName(j);
        }
      }
      if k in SecretData(rootToken, keys) && k != RootTokenKey {
        var i :| 1 <= i <= |keys| && k == KeyName(i);
        assert w[i] == k;
      }
    }
  }

  /** Visiting the keys in write order selects the keys in their original order. */
  lemma {:induction false} WriteOrderSelects(data: map<string, string>, keys: seq<string>, n: nat)
    requires n <= |keys| && RootTokenKey in data
    requires forall i :: 1 <= i <= n ==> KeyName(i) in data && data[KeyName(i)] == keys[i - 1]
    ensures forall j :: 0 <= j < |WriteOrder(n)| ==> WriteOrder(n)[j] in data
    ensures Selected(data, WriteOrder(n)) == keys[..n]
    decreases n
  {
    if n == 0 {
      WriteOrderSelectsBase(data, keys);
    } else {
      WriteOrderSelects(data, keys, n - 1);
      WriteOrderSelectsStep(data, keys, n, WriteOrder(n - 1));
      TakeSnoc(keys, n);
    }
  }

  lemma WriteOrderSelectsBase(data: map<string, string>, keys: seq<string>)
    requires RootTokenKey in data
    ensures Selected(data, WriteOrder(0)) == keys[..0]
  {
    RootTokenKeyNotSelected();
    assert Selected(data, [RootTokenKey]) == [] + Selected(data, []);
  }

  lemma WriteOrderSelectsStep(data: map<string, string>, keys: seq<string>, n: nat, p: seq<string>)
    requires 0 < n <= |keys| && p == WriteOrder(n - 1)
    requires forall j :: 0 <= j < |p| ==> p[j] in data
    requires KeyName(n) in data && data[KeyName(n)] == keys[n - 1]
    ensures forall j :: 0 <= j < |WriteOrder(n)| ==> WriteOrder(n)[j] in data
    ensures Selected(data, WriteOrder(n)) == Selected(data, p) + [keys[n - 1]]
  {
    assert WriteOrder(n) == p + [KeyName(n)];
    KeyNameSelected(n);
    SelectedSnoc(data, p, KeyName(n));
  }

  lemma SelectedSnoc(data: map<string, string>, p: seq<string>, k: string)
    requires forall j :: 0 <= j < |p| ==> p[j] in data
    requires k in data && Contains(k, UnsealKeyPrefix)
    ensures forall j :: 0 <= j < |p + [k]| ==> (p + [k])[j] in data
    ensures Selected(data, p + [k]) == Selected(data, p) + [data[k]]
  {
    assert Selected(data, [k]) == [data[k]] + Selected(data, []);
    SelectedAppend(data, p, [k]);
  }

  lemma TakeSnoc(keys: seq<string>, n: nat)
    requires 0 < n <= |keys|
    ensures keys[..n] == keys[..n - 1] + [keys[n - 1]]
  {
  }

  lemma WriteOrderVisitsEachKey(rootToken: string, keys: seq<string>)
    ensures VisitsEachKey(SecretData(rootToken, keys), WriteOrder(|keys|))
  {
    WriteOrderCounts(|keys|);
    WriteOrderKeys(rootToken, keys);
  }

  /**
   * Round trip: reading back the secret vaultInit writes gives the same root
   * token and the same keys, in whatever order the map is visited, counted
   * with multiplicity.
   */
  lemma FetchAfterInit(rootToken: string, keys: seq<string>, order: seq<string>)
    requires VisitsEachKey(SecretData(rootToken, keys), order)
    ensures forall j :: 0 <= j < |order| ==> order[j] in SecretData(rootToken, keys)
    ensures multiset(Selected(SecretData(rootToken, keys), order)) == multiset(keys)
    ensures RootTokenKey in SecretData(rootToken, keys) && SecretData(rootToken, keys)[RootTokenKey] == rootToken
  {
    var data := SecretData(rootToken, keys);
    SecretDataContents(rootToken, keys);
    WriteOrderSelects(data, keys, |keys|);
    assert keys[..|keys|] == keys;
    WriteOrderVisitsEachKey(rootToken, keys);
    VisitOrdersPermute(data, WriteOrder(|keys|), order);
    SelectedPermutation(data, WriteOrder(|keys|), order);
  }

  /** What one unseal transaction reported: whether Vault is now unsealed, and an error. */
  datatype Transaction = Transaction(done: bool, err: Option<string>)

  /** The position of the first transaction that reports done or an error. */
  function FirstStop(answers: seq<Transaction>): (r: Option<nat>)
    ensures r.Some? ==> r.value < |answers| && (answers[r.value].done || answers[r.value].err.Some?)
    ensures r.Some? ==> forall j :: 0 <= j < r.value ==> !answers[j].done && answers[j].err.None?
    ensures r.None? ==> forall j :: 0 <= j < |answers| ==> !answers[j].done && answers[j].err.None?
    decreases |answers|
  {
    if |answers| == 0 then None
    else if answers[0].done || answers[0].err.Some? then Some(0)
    else match FirstStop(answers[1..])
      case None => None
      case Some(i) => Some(i + 1)
  }

  /**
   * vaultUnseal: the keys are submitted in order, `answers[i]` being what the
   * i-th submission reported; it stops at the first transaction that is done
   * or failed and returns that transaction's error, and returns nil once every
   * key was submitted without either.
   */
  method VaultUnseal(keys: seq<string>, answers: seq<Transaction>) returns (err: Option<string>, submitted: seq<string>)
    requires |answers| == |keys|
    ensures FirstStop(answers).None? ==> err == None && submitted == keys
    ensures FirstStop(answers).Some? ==>
      err == answers[FirstStop(answers).value].err && submitted == keys[..FirstStop(answers).value + 1]
  {
    submitted := [];
    for i := 0 to |keys|
      invariant submitted == keys[..i]
      invariant forall j :: 0 <= j < i ==> !answers[j].done && answers[j].err.None?
    {
      submitted := submitted + [keys[i]];
      assert keys[..i + 1] == keys[..i] + [keys[i]];
      var t := answers[i];
      if t.done {
        assert FirstStop(answers) == Some(i) by { FirstStopAt(answers, i); }
        return t.err, submitted;
      }
      if t.err.Some? {
        FirstStopAt(answers, i);
        return t.err, submitted;
      }
    }
    assert keys[..|keys|] == keys;
    return None, submitted;
  }

  lemma {:induction false} FirstStopAt(answers: seq<Transaction>, i: nat)
    requires i < |answers| && (answers[i].done || answers[i].err.Some?)
    requires forall j :: 0 <= j < i ==> !answers[j].done && answers[j].err.None?
    ensures FirstStop(answers) == Some(i)
    decreases i
  {
    if i > 0 {
      FirstStopAt(answers[1..], i - 1);
    }
  }

  /** A command the raft-follower branch runs on a Vault pod. */
  datatype PodCommand = RaftJoin(pod: int) | Unseal(pod: int, key: string)

  /**
   * The raft-follower branch of UnsealVault: pods 1 to Nodes-1 each join the
   * raft cluster and then receive at most the first three keys, in order.
   */
  method RaftFollowerCommands(nodes: int, keys: seq<string>) returns (commands: seq<PodCommand>)
    ensures commands == FollowerPlan(1, nodes, keys)
  {
    commands := [];
    var i := 1;
    while i < nodes
      invariant nodes <= 1 ==> i == 1
      invariant nodes > 1 ==> 1 <= i <= nodes
      invariant commands + FollowerPlan(i, nodes, keys) == FollowerPlan(1, nodes, keys)
      decreases nodes - i
    {
      var pod := PodCommands(i, keys);
      assert FollowerPlan(i, nodes, keys) == pod + FollowerPlan(i + 1, nodes, keys);
      AppendAssoc(commands, pod, FollowerPlan(i + 1, nodes, keys));
      commands := commands + pod;
      i := i + 1;
    }
  }

  lemma AppendAssoc(a: seq<PodCommand>, b: seq<PodCommand>, c: seq<PodCommand>)
    ensures a + b + c == a + (b + c)
  {
  }

  /** The commands for one follower pod: join, then the key loop that breaks after the third key. */
  method PodCommands(i: int, keys: seq<string>) returns (pod: seq<PodCommand>)
    ensures pod == [RaftJoin(i)] + UnsealCommands(i, FirstThree(keys))
  {
    pod := [RaftJoin(i)];
    for keyNum := 0 to |keys|
      invariant pod == [RaftJoin(i)] + UnsealCommands(i, keys[..if keyNum < 3 then keyNum else 3])
    {
      if keyNum < 3 {
        assert keys[..keyNum + 1] == keys[..keyNum] + [keys[keyNum]];
        UnsealCommandsSnoc(i, keys[..keyNum], keys[keyNum]);
        pod := pod + [Unseal(i, keys[keyNum])];
      } else {
        break;
      }
    }
    assert keys[..|keys|] == keys;
  }

  function UnsealCommands(pod: int, keys: seq<string>): (r: seq<PodCommand>)
    ensures |r| == |keys| && forall k :: 0 <= k < |keys| ==> r[k] == Unseal(pod, keys[k])
  {
    seq(|keys|, k requires 0 <= k < |keys| => Unseal(pod, keys[k]))
  }

  lemma UnsealCommandsSnoc(pod: int, keys: seq<string>, key: string)
    ensures UnsealCommands(pod, keys + [key]) == UnsealCommands(pod, keys) + [Unseal(pod, key)]
  {
  }

  /** The keys a follower is given: at most the first three. */
  function FirstThree(keys: seq<string>): (r: seq<string>)
    ensures |r| <= 3 && |r| <= |keys| && r == keys[..|r|] && (|keys| >= 3 ==> |r| == 3) && (|keys| < 3 ==> r == keys)
  {
    if |keys| < 3 then keys else keys[..3]
  }

  /** The commands for pods `from` to nodes-1. */
  function FollowerPlan(from: int, nodes: int, keys: seq<string>): seq<PodCommand>
    decreases nodes - from
  {
    if from >= nodes then []
    else [RaftJoin(from)] + UnsealCommands(from, FirstThree(keys)) + FollowerPlan(from + 1, nodes, keys)
  }

  /**
   * Every command goes to a pod from `from` to nodes-1, every such pod joins
   * the raft cluster, and only the first three keys are ever passed.
   */
  lemma {:induction false} FollowerPlanBounds(from: int, nodes: int, keys: seq<string>)
    ensures forall c :: c in FollowerPlan(from, nodes, keys) ==> from <= c.pod < nodes
    ensures forall c :: c in FollowerPlan(from, nodes, keys) && c.Unseal? ==>
      exists k :: 0 <= k < 3 && k < |keys| && c.key == keys[k]
    ensures forall p :: from <= p < nodes ==> RaftJoin(p) in FollowerPlan(from, nodes, keys)
    decreases nodes - from
  {
    if from < nodes {
      FollowerPlanBounds(from + 1, nodes, keys);
      var head := [RaftJoin(from)] + UnsealCommands(from, FirstThree(keys));
      forall c | c in head && c.Unseal? ensures exists k :: 0 <= k < 3 && k < |keys| && c.key == keys[k] {
        var k :| 0 <= k < |head| && head[k] == c;
        assert c.key == FirstThree(keys)[k - 1];
      }
      assert FollowerPlan(from, nodes, keys) == head + FollowerPlan(from + 1, nodes, keys);
    }
  }

  /** Which branch UnsealVault takes for its options. */
  datatype Action = UnsealLeader | JoinFollowers(nodes: int) | ExitUnsupported(haType: string) | NoAction

  function UnsealVaultAction(highAvailability: bool, haType: string, raftLeader: bool, raftFollower: bool, nodes: int): (a: Action)
    ensures a.UnsealLeader? <==> highAvailability && haType == "raft" && raftLeader
    ensures a.JoinFollowers? <==> highAvailability && haType == "raft" && !raftLeader && raftFollower
    ensures a.ExitUnsupported? <==> highAvailability && haType != "raft"
  {
    if highAvailability && haType == "raft" then
      if raftLeader then UnsealLeader
      else if raftFollower then JoinFollowers(nodes)
      else NoAction
    else if highAvailability then ExitUnsupported(haType)
    else NoAction
  }
}
