/** A configured REST mock (RestfulMock) and the one-shot "suspend" rule:
    a response variant or rule flagged `suspend` is removed from the mock's
    in-memory lists before the mock next serves a request. */
module Mocks {
  import opened Common

  /** The value of a mock at one moment. */
  datatype MockView = MockView(
    httpMethod: Method,
    path: string,
    mockType: MockType,
    createdBy: User,
    randomiseLatency: bool,
    latencyMinMillis: int,
    latencyMaxMillis: int,
    sseHeartBeatMillis: int,
    proxyPushIdOnConnect: bool,
    definitions: seq<DefinitionOrder>,
    rules: seq<DefinitionRule>)

  /** RestfulMock. Once the route table is built, the core only ever changes
      the two lists; every other attribute is fixed. */
  class RestfulMock {
    const httpMethod: Method
    const path: string
    const mockType: MockType
    const createdBy: User
    const randomiseLatency: bool
    const latencyMinMillis: int
    const latencyMaxMillis: int
    const sseHeartBeatMillis: int
    const proxyPushIdOnConnect: bool
    var definitions: seq<DefinitionOrder>
    var rules: seq<DefinitionRule>

    constructor (v: MockView)
      ensures View() == v
    {
      httpMethod := v.httpMethod;
      path := v.path;
      mockType := v.mockType;
      createdBy := v.createdBy;
      randomiseLatency := v.randomiseLatency;
      latencyMinMillis := v.latencyMinMillis;
      latencyMaxMillis := v.latencyMaxMillis;
      sseHeartBeatMillis := v.sseHeartBeatMillis;
      proxyPushIdOnConnect := v.proxyPushIdOnConnect;
      definitions := v.definitions;
      rules := v.rules;
    }

    function View(): MockView
      reads this
    {
      MockView(httpMethod, path, mockType, createdBy, randomiseLatency, latencyMinMillis,
               latencyMaxMillis, sseHeartBeatMillis, proxyPushIdOnConnect, definitions, rules)
    }
  }

  function SuspendedOrder(d: DefinitionOrder): bool
  {
    d.suspend
  }

  function SuspendedRule(r: DefinitionRule): bool
  {
    r.suspend
  }

  /** `s` with every element that `suspended` flags taken out; the others
      stay, in their original order. */
  function Unsuspended<T>(s: seq<T>, suspended: T -> bool): (r: seq<T>)
    ensures |r| <= |s|
  {
    if s == [] then []
    else
      var kept := Unsuspended(s[..|s| - 1], suspended);
      if suspended(s[|s| - 1]) then kept else kept + [s[|s| - 1]]
  }

  /** Pruning a list one element longer: the new element is kept exactly
      when it is not flagged. */
  lemma UnsuspendedSnoc<T>(s: seq<T>, k: nat, suspended: T -> bool)
    requires k < |s|
    ensures Unsuspended(s[..k + 1], suspended)
         == Unsuspended(s[..k], suspended) + (if suspended(s[k]) then [] else [s[k]])
  {
    assert s[..k + 1][..k] == s[..k];
  }

  /** The mock after one pruning pass over both lists. */
  function Pruned(m: MockView): MockView
  {
    m.(definitions := Unsuspended(m.definitions, SuspendedOrder),
       rules := Unsuspended(m.rules, SuspendedRule))
  }

  /** Pruning distributes over concatenation: it never reorders. */
  lemma {:induction false} UnsuspendedAppend<T>(a: seq<T>, b: seq<T>, suspended: T -> bool)
    ensures Unsuspended(a + b, suspended) == Unsuspended(a, suspended) + Unsuspended(b, suspended)
    decreases |b|
  {
    if b == [] {
      assert a + b == a;
    } else {
      var b' := b[..|b| - 1];
      assert (a + b)[..|a + b| - 1] == a + b';
      assert (a + b)[|a + b| - 1] == b[|b| - 1];
      UnsuspendedAppend(a, b', suspended);
    }
  }

  /** No flagged element survives pruning. */
  lemma {:induction false} UnsuspendedHasNoSuspended<T>(s: seq<T>, suspended: T -> bool)
    ensures forall i :: 0 <= i < |Unsuspended(s, suspended)| ==> !suspended(Unsuspended(s, suspended)[i])
  {
    if s != [] {
      UnsuspendedHasNoSuspended(s[..|s| - 1], suspended);
    }
  }

  /** Pruning removes every copy of a flagged element and keeps every copy
      of an unflagged one. */
  lemma {:induction false} UnsuspendedCounts<T>(s: seq<T>, suspended: T -> bool)
    ensures forall x :: multiset(Unsuspended(s, suspended))[x] == if suspended(x) then 0 else multiset(s)[x]
  {
    if s != [] {
      var init := s[..|s| - 1];
      UnsuspendedCounts(init, suspended);
      assert s == init + [s[|s| - 1]];
      assert multiset(s) == multiset(init) + multiset{s[|s| - 1]};
    }
  }

  /** Each unflagged element is kept exactly between the survivors that came
      before it and those that came after it. */
  lemma UnsuspendedKeepsInPlace<T>(s: seq<T>, i: nat, suspended: T -> bool)
    requires i < |s| && !suspended(s[i])
    ensures Unsuspended(s, suspended)
         == Unsuspended(s[..i], suspended) + [s[i]] + Unsuspended(s[i + 1..], suspended)
  {
    assert s == s[..i + 1] + s[i + 1..];
    UnsuspendedAppend(s[..i + 1], s[i + 1..], suspended);
    UnsuspendedSnoc(s, i, suspended);
  }

  /** A list with nothing flagged is left as it is. */
  lemma {:induction false} UnsuspendedIdentity<T>(s: seq<T>, suspended: T -> bool)
    requires forall i :: 0 <= i < |s| ==> !suspended(s[i])
    ensures Unsuspended(s, suspended) == s
  {
    if s != [] {
      UnsuspendedIdentity(s[..|s| - 1], suspended);
      assert s[..|s| - 1] + [s[|s| - 1]] == s;
    }
  }

  /** A second pruning pass changes nothing. */
  lemma UnsuspendedIdempotent<T>(s: seq<T>, suspended: T -> bool)
    ensures Unsuspended(Unsuspended(s, suspended), suspended) == Unsuspended(s, suspended)
  {
    UnsuspendedHasNoSuspended(s, suspended);
    UnsuspendedIdentity(Unsuspended(s, suspended), suspended);
  }

  /** Pruning a mock twice is pruning it once; afterwards neither list holds
      a suspended entry. */
  lemma PrunedIsFinal(m: MockView)
    ensures Pruned(Pruned(m)) == Pruned(m)
    ensures forall i :: 0 <= i < |Pruned(m).definitions| ==> !Pruned(m).definitions[i].suspend
    ensures forall i :: 0 <= i < |Pruned(m).rules| ==> !Pruned(m).rules[i].suspend
  {
    UnsuspendedIdempotent(m.definitions, SuspendedOrder);
    UnsuspendedIdempotent(m.rules, SuspendedRule);
    UnsuspendedHasNoSuspended(m.definitions, SuspendedOrder);
    UnsuspendedHasNoSuspended(m.rules, SuspendedRule);
  }
}
