/** RpcClientPool as an object: the endpoint states, the idle connections and the candidate order. */
module ClientPool {
  import opened Breaker

  /** An open connection to an endpoint, by identity. */
  type Client(==,!new)

  datatype Borrowed = Idle(client: Client) | NewConnection

  /** An endpoint that was never looked at has the state it would be given. */
  function At(states: map<string, Endpoint>, ep: string): Endpoint {
    if ep in states then states[ep] else FRESH
  }

  function IdleAt(idle: map<string, seq<Client>>, ep: string): seq<Client> {
    if ep in idle then idle[ep] else []
  }

  ghost predicate SameStates(a: map<string, Endpoint>, b: map<string, Endpoint>) {
    forall ep :: At(a, ep) == At(b, ep)
  }

  // ---------- the candidate order ----------

  /** The non-empty endpoints, each where it first occurs. */
  function Unique(s: seq<string>): seq<string> {
    if s == [] then [] else
      var u, x := Unique(s[..|s| - 1]), s[|s| - 1];
      if x == "" || x in u then u else u + [x]
  }

  function Rotated(s: seq<string>, k: nat): seq<string>
    requires k <= |s|
  {
    s[k..] + s[..k]
  }

  function Kept(s: seq<string>, states: map<string, Endpoint>, now: int): seq<string> {
    if s == [] then [] else
      var u, x := Kept(s[..|s| - 1], states, now), s[|s| - 1];
      if Healthy(At(states, x), now) then u + [x] else u
  }

  predicate Distinct(s: seq<string>) {
    forall i, j :: 0 <= i < j < |s| ==> s[i] != s[j]
  }

  function Candidates(s: seq<string>, turn: nat, states: map<string, Endpoint>, now: int): seq<string> {
    var u := Unique(s);
    if u == [] then [] else Kept(Rotated(u, turn % |u|), states, now)
  }

  lemma {:induction false} UniqueExactly(s: seq<string>, x: string)
    ensures Distinct(Unique(s))
    ensures x in Unique(s) <==> x in s && x != ""
  {
    if s != [] {
      UniqueExactly(s[..|s| - 1], x);
      assert s == s[..|s| - 1] + [s[|s| - 1]];
    }
  }

  lemma {:induction false} KeptExactly(s: seq<string>, states: map<string, Endpoint>, now: int, x: string)
    requires Distinct(s)
    ensures Distinct(Kept(s, states, now))
    ensures x in Kept(s, states, now) <==> x in s && Healthy(At(states, x), now)
    ensures forall y :: y in Kept(s, states, now) ==> y in s
  {
    if s != [] {
      var front, last := s[..|s| - 1], s[|s| - 1];
      KeptExactly(front, states, now, x);
      assert s == front + [last];
      assert last !in front;
    }
  }

  /** The candidates are the given endpoints that are healthy enough, each once, whoever's turn it is. */
  lemma CandidatesExactly(s: seq<string>, turn: nat, states: map<string, Endpoint>, now: int, x: string)
    ensures Distinct(Candidates(s, turn, states, now))
    ensures x in Candidates(s, turn, states, now) <==> x in s && x != "" && Healthy(At(states, x), now)
  {
    UniqueExactly(s, x);
    var u := Unique(s);
    if u != [] {
      var r := Rotated(u, turn % |u|);
      assert u == u[..turn % |u|] + u[turn % |u|..];
      KeptExactly(r, states, now, x);
    }
  }

  /** The counter is a 64-bit one. */
  const WRAP: nat := 0x1_0000_0000_0000_0000

  /** The j-th call from this turn on starts with x; the counter wraps at w. */
  predicate StartsWith(u: seq<string>, turn: nat, w: nat, j: nat, x: string)
    requires u != [] && w > 0
  {
    Rotated(u, (turn + j) % w % |u|)[0] == x
  }

  /** Of the next n calls over the n endpoints exactly one starts with x. */
  ghost predicate StartsOnce(u: seq<string>, turn: nat, w: nat, x: string)
    requires u != [] && w > 0
  {
    && (exists j :: 0 <= j < |u| && StartsWith(u, turn, w, j, x))
    && forall j, k :: 0 <= j < |u| && 0 <= k < |u| && StartsWith(u, turn, w, j, x) && StartsWith(u, turn, w, k, x) ==> j == k
  }

  ghost predicate Fair(u: seq<string>, turn: nat, w: nat)
    requires u != [] && w > 0
  {
    forall i :: 0 <= i < |u| ==> StartsOnce(u, turn, w, u[i])
  }

  predicate AllHealthy(s: seq<string>, states: map<string, Endpoint>, now: int) {
    forall x :: x in s && x != "" ==> Healthy(At(states, x), now)
  }

  /** The j-th call from this turn on gets candidates that start with x. */
  predicate CallStartsWith(s: seq<string>, states: map<string, Endpoint>, now: int, turn: nat, j: nat, x: string) {
    var c := Candidates(s, (turn + j) % WRAP, states, now);
    c != [] && c[0] == x
  }

  /** Of the next n calls, as many as there are endpoints, exactly one starts with x. */
  ghost predicate CallsStartOnce(s: seq<string>, states: map<string, Endpoint>, now: int, turn: nat, x: string) {
    var n := |Unique(s)|;
    && (exists j :: 0 <= j < n && CallStartsWith(s, states, now, turn, j, x))
    && (forall j, k :: 0 <= j < n && 0 <= k < n ==>
          CallStartsWith(s, states, now, turn, j, x) && CallStartsWith(s, states, now, turn, k, x) ==> j == k)
  }

  ghost predicate FairCalls(s: seq<string>, states: map<string, Endpoint>, now: int, turn: nat) {
    forall x :: x in s && x != "" ==> CallsStartOnce(s, states, now, turn, x)
  }

  lemma {:induction false} KeptAll(u: seq<string>, states: map<string, Endpoint>, now: int)
    requires forall x :: x in u ==> Healthy(At(states, x), now)
    ensures Kept(u, states, now) == u
  {
    if u != [] {
      KeptAll(u[..|u| - 1], states, now);
      assert u == u[..|u| - 1] + [u[|u| - 1]];
    }
  }

  lemma AllAreCandidates(s: seq<string>, turn: nat, states: map<string, Endpoint>, now: int)
    requires AllHealthy(s, states, now) && Unique(s) != []
    ensures Candidates(s, turn, states, now) == Rotated(Unique(s), turn % |Unique(s)|)
  {
    var u := Unique(s);
    var r := Rotated(u, turn % |u|);
    forall x | x in r ensures Healthy(At(states, x), now) {
      UniqueExactly(s, x);
      assert u == u[..turn % |u|] + u[turn % |u|..];
    }
    KeptAll(r, states, now);
  }

  lemma SameStart(s: seq<string>, states: map<string, Endpoint>, now: int, turn: nat, j: nat, x: string)
    requires AllHealthy(s, states, now) && Unique(s) != []
    ensures CallStartsWith(s, states, now, turn, j, x) <==> StartsWith(Unique(s), turn, WRAP, j, x)
  {
    AllAreCandidates(s, (turn + j) % WRAP, states, now);
  }

  lemma SameOnce(s: seq<string>, states: map<string, Endpoint>, now: int, turn: nat, x: string)
    requires AllHealthy(s, states, now) && Unique(s) != []
    ensures CallsStartOnce(s, states, now, turn, x) <==> StartsOnce(Unique(s), turn, WRAP, x)
  {
    forall j: nat ensures CallStartsWith(s, states, now, turn, j, x) <==> StartsWith(Unique(s), turn, WRAP, j, x) {
      SameStart(s, states, now, turn, j, x);
    }
  }

  /**
   With all endpoints healthy, of any n calls in a row over n endpoints exactly one gets candidates
   that start with each, if and only if the counter does not wrap on the way or n divides its range.
   */
  lemma FairTurnsExactly(s: seq<string>, states: map<string, Endpoint>, now: int, turn: nat)
    requires AllHealthy(s, states, now) && 0 < |Unique(s)| <= WRAP && turn < WRAP
    ensures FairCalls(s, states, now, turn) <==> turn + |Unique(s)| <= WRAP || WRAP % |Unique(s)| == 0
  {
    var u := Unique(s);
    UniqueExactly(s, "");
    FairExactly(u, turn, WRAP);
    forall x ensures (x in s && x != "" <==> x in u) && (CallsStartOnce(s, states, now, turn, x) <==> StartsOnce(u, turn, WRAP, x)) {
      UniqueExactly(s, x);
      SameOnce(s, states, now, turn, x);
    }
    if Fair(u, turn, WRAP) {
      forall x | x in s && x != "" ensures CallsStartOnce(s, states, now, turn, x) {
        var i :| 0 <= i < |u| && u[i] == x;
        assert StartsOnce(u, turn, WRAP, u[i]);
      }
    } else {
      var i :| 0 <= i < |u| && !StartsOnce(u, turn, WRAP, u[i]);
      assert u[i] in u;
    }
  }

  // ---------- the order ----------

  lemma {:induction false} KeptInOrder(r: seq<string>, states: map<string, Endpoint>, now: int, i: nat, j: nat)
    returns (p: nat, q: nat)
    requires i <= j < |Kept(r, states, now)|
    ensures p <= q < |r| && (i < j ==> p < q) && Kept(r, states, now)[i] == r[p] && Kept(r, states, now)[j] == r[q]
  {
    var front := r[..|r| - 1];
    var k := Kept(front, states, now);
    if j < |k| {
      p, q := KeptInOrder(front, states, now, i, j);
    } else {
      if i < j {
        p, q := KeptInOrder(front, states, now, i, i);
        q := |r| - 1;
      } else {
        p, q := |r| - 1, |r| - 1;
      }
    }
  }

  /** The candidates follow the endpoints round, from the one whose turn it is. */
  lemma CandidatesInOrder(s: seq<string>, turn: nat, states: map<string, Endpoint>, now: int, i: nat, j: nat)
    returns (p: nat, q: nat)
    requires i < j < |Candidates(s, turn, states, now)|
    ensures var u := Unique(s); var c := Candidates(s, turn, states, now);
            p < q < |u| && c[i] == u[(turn + p) % |u|] && c[j] == u[(turn + q) % |u|]
  {
    var u := Unique(s);
    p, q := KeptInOrder(Rotated(u, turn % |u|), states, now, i, j);
    TurnedAt(u, turn % |u|, p);
    TurnedAt(u, turn % |u|, q);
    SameRest(turn, p, |u|);
    SameRest(turn, q, |u|);
  }

  lemma SameRest(turn: nat, p: nat, n: nat)
    requires n > 0
    ensures (turn % n + p) % n == (turn + p) % n
  {
    var a, r := turn / n, turn % n;
    Product(turn, n);
    Product(r + p, n);
    var b, c := (r + p) / n, (r + p) % n;
    Distributes(a, b, n);
    ModUnique(turn + p, a + b, c, n);
  }

  lemma Distributes(a: int, b: int, n: int)
    ensures (a + b) * n == a * n + b * n
  {
  }

  /** x occurs in s at k for the first time. */
  predicate FirstAt(s: seq<string>, x: string, k: nat) {
    k < |s| && s[k] == x && x !in s[..k]
  }

  /** The endpoints come in the order of their first occurrence. */
  lemma {:induction false} UniqueInOrder(s: seq<string>, i: nat, j: nat, a: nat, b: nat)
    requires i < j < |Unique(s)| && FirstAt(s, Unique(s)[i], a) && FirstAt(s, Unique(s)[j], b)
    ensures a < b
  {
    var front, last := s[..|s| - 1], s[|s| - 1];
    var u := Unique(front);
    UniqueExactly(front, Unique(s)[i]);
    UniqueExactly(front, Unique(s)[j]);
    assert s == front + [last];
    assert i < |u| && Unique(s)[i] == u[i] && u[i] in front;
    assert a < |front| && front[..a] == s[..a];
    if j < |u| {
      assert u[j] in front && b < |front| && front[..b] == s[..b];
      UniqueInOrder(front, i, j, a, b);
    }
  }

  lemma FairExactly(u: seq<string>, turn: nat, w: nat)
    requires Distinct(u) && 0 < |u| <= w && turn < w
    ensures Fair(u, turn, w) <==> turn + |u| <= w || w % |u| == 0
  {
    if turn + |u| <= w || w % |u| == 0 {
      forall i | 0 <= i < |u| ensures StartsOnce(u, turn, w, u[i]) {
        FairWithoutWrap(u, turn, w, i);
      }
    } else {
      var i, j, k := UnfairAtWrap(u, turn, w);
      assert StartsWith(u, turn, w, j, u[i]) && StartsWith(u, turn, w, k, u[i]);
      assert !StartsOnce(u, turn, w, u[i]);
    }
  }

  lemma FairWithoutWrap(u: seq<string>, turn: nat, w: nat, i: nat)
    requires Distinct(u) && i < |u| <= w && turn < w && (turn + |u| <= w || w % |u| == 0)
    ensures StartsOnce(u, turn, w, u[i])
  {
    var n := |u|;
    var r := turn % n;
    var j := if r <= i then i - r else i + n - r;
    ModShift(turn, i, n);
    SameTurn(turn, j, w, n);
    assert StartsWith(u, turn, w, j, u[i]);
    forall j, k | 0 <= j < n && 0 <= k < n && StartsWith(u, turn, w, j, u[i]) && StartsWith(u, turn, w, k, u[i])
      ensures j == k
    {
      SameTurn(turn, j, w, n);
      SameTurn(turn, k, w, n);
      ModInjective(turn, j, k, n);
    }
  }

  /** Where the counter's wrap does not show. */
  lemma SameTurn(turn: nat, j: nat, w: nat, n: nat)
    requires j < n <= w && turn < w && (turn + n <= w || w % n == 0)
    ensures (turn + j) % w % n == (turn + j) % n
  {
    if turn + j < w {
      ModUnique(turn + j, 0, turn + j, w);
    } else {
      var x := turn + j - w;
      ModUnique(turn + j, 1, x, w);
      Product(w, n);
      Product(x, n);
      var q, p, r := w / n, x / n, x % n;
      assert (q + p) * n == q * n + p * n;
      ModUnique(turn + j, q + p, r, n);
    }
  }

  /** Two of n calls across the wrap that start with the same endpoint. */
  lemma UnfairAtWrap(u: seq<string>, turn: nat, w: nat) returns (i: nat, j: nat, k: nat)
    requires 0 < |u| <= w && turn < w < turn + |u| && w % |u| != 0
    ensures i < |u| && j < |u| && k < |u| && j != k
    ensures StartsWith(u, turn, w, j, u[i]) && StartsWith(u, turn, w, k, u[i])
  {
    var n := |u|;
    var left, c, q := w - turn, w % n, w / n;
    Product(w, n);
    if c >= left {
      i, j, k := c - left, 0, c;
      ModUnique(turn, 0, turn, w);
      ModUnique(turn, q, i, n);
      ModUnique(turn + c, 1, i, w);
      ModUnique(i, 0, i, n);
    } else {
      i, j, k := 0, left - c, left;
      ModUnique(turn + j, 0, turn + j, w);
      ModUnique(turn + j, q, 0, n);
      ModUnique(turn + left, 1, 0, w);
      ModUnique(0, 0, 0, n);
    }
  }

  lemma TurnedAt(u: seq<string>, start: nat, i: nat)
    requires start < |u| && i < |u|
    ensures Rotated(u, start)[i] == u[(start + i) % |u|]
  {
    if start + i < |u| {
      ModUnique(start + i, 0, start + i, |u|);
    } else {
      ModUnique(start + i, 1, start + i - |u|, |u|);
    }
  }

  lemma ModShift(turn: nat, i: nat, n: nat)
    requires i < n
    ensures var r := turn % n; (turn + if r <= i then i - r else i + n - r) % n == i
  {
    var r, q := turn % n, turn / n;
    assert turn == q * n + r;
    if r <= i {
      ModUnique(turn + i - r, q, i, n);
    } else {
      assert (q + 1) * n == q * n + n;
      ModUnique(turn + i + n - r, q + 1, i, n);
    }
  }

  lemma ModInjective(turn: nat, j: nat, k: nat, n: nat)
    requires j < n && k < n && (turn + j) % n == (turn + k) % n
    ensures j == k
  {
    var a, b, r := (turn + j) / n, (turn + k) / n, (turn + j) % n;
    Product(turn + j, n);
    Product(turn + k, n);
    Gap(a - b, n);
    assert (a - b) * n == a * n - b * n;
  }

  lemma Product(x: nat, n: nat)
    requires n > 0
    ensures x == (x / n) * n + x % n
  {
  }

  lemma Gap(a: int, n: int)
    requires n >= 0
    ensures a > 0 ==> a * n >= n
    ensures a < 0 ==> a * n + n <= 0
  {
    if a > 0 {
      Signs(a - 1, n);
    } else if a < 0 {
      Signs(-a - 1, n);
    }
  }

  lemma Signs(a: int, n: int)
    requires a >= 0 && n >= 0
    ensures a * n >= 0 && (a + 1) * n == a * n + n && (-a - 1) * n == -(a * n) - n
  {
  }

  lemma SameDivision(a: int, b: nat, q: int, r: nat, n: nat)
    requires b < n && r < n && a * n + b == q * n + r
    ensures a == q && b == r
  {
    Gap(a - q, n);
    assert (a - q) * n == a * n - q * n;
  }

  lemma ModUnique(x: nat, q: nat, r: nat, n: nat)
    requires r < n && x == q * n + r
    ensures x % n == r
  {
    Product(x, n);
    SameDivision(x / n, x % n, q, r, n);
  }

  class RpcClientPool {
    const options: Options
    var states: map<string, Endpoint>
    var idle: map<string, seq<Client>>
    var roundRobin: nat

    ghost predicate Valid()
      reads this
    {
      && options.maxIdle >= 1 && options.threshold >= 1 && options.cooldown >= 0
      && roundRobin < WRAP
      && forall ep :: ep in idle ==> |idle[ep]| <= options.maxIdle
    }

    constructor (o: Options)
      ensures Valid() && options == Corrected(o) && states == map[] && idle == map[] && roundRobin == 0
    {
      options := Corrected(o);
      states := map[];
      idle := map[];
      roundRobin := 0;
    }

    method StateFor(ep: string) returns (e: Endpoint)
      modifies this`states
      ensures e == At(old(states), ep) && states == old(states)[ep := e]
    {
      if ep !in states {
        states := states[ep := FRESH];
      }
      e := states[ep];
    }

    method IsHealthyEnough(ep: string, now: int) returns (ok: bool)
      modifies this`states
      ensures ok == Healthy(At(old(states), ep), now)
      ensures states == old(states)[ep := At(old(states), ep)]
    {
      var e := StateFor(ep);
      if e.circuit == Closed { return true; }
      if e.circuit == Open { return now >= e.until && !e.probing; }
      return false;
    }

    method ReserveHalfOpenProbe(ep: string, now: int) returns (ok: bool)
      modifies this`states
      ensures ok == CanReserve(At(old(states), ep), now)
      ensures states == old(states)[ep := if ok then Reserved(At(old(states), ep)) else At(old(states), ep)]
    {
      var e := StateFor(ep);
      if e.circuit != Open || now < e.until || e.probing { return false; }
      states := states[ep := e.(circuit := HalfOpen, probing := true)];
      return true;
    }

    method RecordSuccess(ep: string)
      modifies this`states
      ensures states == old(states)[ep := Succeeded(At(old(states), ep))]
    {
      var e := StateFor(ep);
      states := states[ep := e.(failures := 0, until := 0, circuit := Closed, probing := false)];
    }

    method RecordFailure(ep: string, now: int)
      modifies this`states
      ensures states == old(states)[ep := Failed(At(old(states), ep), options, now)]
    {
      var e := StateFor(ep);
      e := e.(failures := e.failures + 1);
      if e.failures >= options.threshold {
        e := e.(until := now + options.cooldown, circuit := Open, probing := false);
      }
      states := states[ep := e];
    }

    method FinishHalfOpenProbe(ep: string, success: bool, now: int)
      modifies this`states
      ensures states == old(states)[ep := Ended(At(old(states), ep), options, now, success)]
    {
      if success { RecordSuccess(ep); } else { RecordFailure(ep, now); }
    }

    /** The connection given back last is taken first. */
    method Borrow(ep: string) returns (b: Borrowed)
      requires Valid()
      modifies this`states, this`idle
      ensures Valid() && states == old(states)[ep := At(old(states), ep)]
      ensures var was := IdleAt(old(idle), ep);
              if was == [] then b == NewConnection && idle == old(idle)
              else b == Idle(was[|was| - 1]) && idle == old(idle)[ep := was[..|was| - 1]]
    {
      var _ := StateFor(ep);
      var was := IdleAt(idle, ep);
      if was == [] { return NewConnection; }
      idle := idle[ep := was[..|was| - 1]];
      b := Idle(was[|was| - 1]);
    }

    method Release(ep: string, client: Client, reusable: bool)
      requires Valid()
      modifies this`idle
      ensures Valid()
      ensures var was := IdleAt(old(idle), ep);
              idle == if reusable && |was| < options.maxIdle then old(idle)[ep := was + [client]] else old(idle)
    {
      if !reusable { return; }
      var was := IdleAt(idle, ep);
      if |was| < options.maxIdle {
        idle := idle[ep := was + [client]];
      }
    }

    method OrderedCandidates(endpoints: seq<string>, now: int) returns (ordered: seq<string>)
      requires Valid()
      modifies this`states, this`roundRobin
      ensures Valid()
      ensures ordered == Candidates(endpoints, old(roundRobin), old(states), now)
      ensures SameStates(states, old(states))
      ensures roundRobin == if Unique(endpoints) == [] then old(roundRobin)
                            else (old(roundRobin) + 1) % WRAP
    {
      var unique: seq<string> := [];
      for i := 0 to |endpoints|
        invariant unique == Unique(endpoints[..i])
      {
        assert endpoints[..i + 1][..i] == endpoints[..i];
        if endpoints[i] == "" { continue; }
        if endpoints[i] !in unique {
          unique := unique + [endpoints[i]];
        }
      }
      assert endpoints[..|endpoints|] == endpoints;
      if unique == [] { return []; }
      var start := roundRobin % |unique|;
      roundRobin := (roundRobin + 1) % WRAP;
      ordered := KeepHealthy(unique, start, now);
    }

    /** The second loop of orderedCandidates. */
    method KeepHealthy(unique: seq<string>, start: nat, now: int) returns (ordered: seq<string>)
      requires start < |unique|
      modifies this`states
      ensures ordered == Kept(Rotated(unique, start), old(states), now)
      ensures SameStates(states, old(states))
    {
      ordered := [];
      ghost var turned := Rotated(unique, start);
      for i := 0 to |unique|
        invariant ordered == Kept(turned[..i], old(states), now)
        invariant SameStates(states, old(states))
      {
        var ep := unique[(start + i) % |unique|];
        TurnedAt(unique, start, i);
        assert turned[..i + 1][..i] == turned[..i];
        assert At(states, ep) == At(old(states), ep);
        var ok := IsHealthyEnough(ep, now);
        if ok {
          ordered := ordered + [ep];
        }
      }
      assert turned[..|unique|] == turned;
    }
  }
}
