/** TaskScheduler::LockRenewer: the leases a node renews, and the thread that renews them. */
module Renewer {

  type Key(==,!new)
  type Value(==,!new)
  /** A CancellationSource, by identity. */
  type Source(==,!new)

  datatype Lease = Lease(key: Key, value: Value, ttl: int, nextRenewAt: int, source: Source)

  type Table = map<Key, Lease>

  function Max(a: int, b: int): int { if a < b then b else a }

  /** Milliseconds between renewals: a third of the time to live, at least one second. */
  function Period(ttl: int): int
    requires ttl >= 0
  {
    1000 * Max(1, ttl / 3)
  }

  /** Every lease is stored under its own key. */
  ghost predicate Keyed(leases: Table) {
    forall k :: k in leases ==> leases[k].key == k && leases[k].ttl >= 0
  }

  ghost predicate DistinctKeys(due: seq<Lease>) {
    && (forall i :: 0 <= i < |due| ==> due[i].ttl >= 0)
    && forall i, j :: 0 <= i < j < |due| ==> due[i].key != due[j].key
  }

  /** The lease d of the batch is still the one registered. */
  predicate Same(leases: Table, d: Lease) {
    d.key in leases && leases[d.key].value == d.value
  }

  predicate IsLost(lost: seq<Lease>, d: Lease) {
    exists i :: 0 <= i < |lost| && lost[i].key == d.key && lost[i].value == d.value
  }

  /** What settling the batch leaves of the table. */
  function Settled(leases: Table, due: seq<Lease>, lost: seq<Lease>, now: int): Table
    requires forall i :: 0 <= i < |due| ==> due[i].ttl >= 0
  {
    if due == [] then leases
    else
      var m := Settled(leases, due[..|due| - 1], lost, now);
      var d := due[|due| - 1];
      if !Same(m, d) then m
      else if IsLost(lost, d) then m - {d.key}
      else m[d.key := m[d.key].(nextRenewAt := now + Period(d.ttl))]
  }

  /** The registered leases that settling the batch cancels. */
  function Canceled(leases: Table, due: seq<Lease>, lost: seq<Lease>): set<Lease> {
    set i | 0 <= i < |due| && Same(leases, due[i]) && IsLost(lost, due[i]) :: leases[due[i].key]
  }

  function Sources(ls: set<Lease>): set<Source> {
    set l | l in ls :: l.source
  }

  /** Settling touches a key only through the lease of the batch that carries it. */
  lemma {:induction false} SettledElsewhere(leases: Table, due: seq<Lease>, lost: seq<Lease>, now: int, k: Key)
    requires DistinctKeys(due) && forall i :: 0 <= i < |due| ==> due[i].key != k
    ensures k in Settled(leases, due, lost, now) <==> k in leases
    ensures k in leases ==> Settled(leases, due, lost, now)[k] == leases[k]
    decreases |due|
  {
    if due != [] { SettledElsewhere(leases, due[..|due| - 1], lost, now, k); }
  }

  /**
   The identity re-check: a lease of the batch that is no longer registered under the same value is
   left alone; one that is goes if its renewal was lost and is re-armed otherwise.
   */
  lemma {:induction false} SettledAt(leases: Table, due: seq<Lease>, lost: seq<Lease>, now: int, i: nat)
    requires DistinctKeys(due) && i < |due|
    ensures var d := due[i]; var m := Settled(leases, due, lost, now);
            && (!Same(leases, d) ==> (d.key in m <==> d.key in leases) && (d.key in m ==> m[d.key] == leases[d.key]))
            && (Same(leases, d) && IsLost(lost, d) ==> d.key !in m)
            && (Same(leases, d) && !IsLost(lost, d) ==>
                  d.key in m && m[d.key] == leases[d.key].(nextRenewAt := now + Period(d.ttl)))
    decreases |due|
  {
    var n := |due| - 1;
    if i < n {
      SettledAt(leases, due[..n], lost, now, i);
    } else {
      SettledElsewhere(leases, due[..n], lost, now, due[i].key);
    }
  }

  class LockRenewer {
    var leases: Table
    var canceled: set<Source>
    var running: bool

    ghost predicate Valid()
      reads this
    {
      Keyed(leases)
    }

    constructor ()
      ensures Valid() && leases == map[] && canceled == {} && !running
    {
      leases := map[];
      canceled := {};
      running := false;
    }

    method Stop()
      requires Valid()
      modifies this
      ensures Valid() && !running && canceled == old(canceled)
      ensures leases == if old(running) then map[] else old(leases)
    {
      if running {
        running := false;
        leases := map[];
      }
    }

    method Add(k: Key, v: Value, ttl: nat, source: Source, now: int)
      requires Valid()
      modifies this`leases
      ensures Valid() && leases == old(leases)[k := Lease(k, v, ttl, now + Period(ttl), source)]
    {
      leases := leases[k := Lease(k, v, ttl, now + Period(ttl), source)];
    }

    method Remove(k: Key, v: Value)
      requires Valid()
      modifies this`leases
      ensures Valid()
      ensures leases == if k in old(leases) && old(leases)[k].value == v then old(leases) - {k} else old(leases)
    {
      if k in leases && leases[k].value == v {
        leases := leases - {k};
      }
    }

    /** The instant the loop sleeps until: the earliest renewal of any lease. */
    method NextWake() returns (at: int)
      requires Valid() && leases != map[]
      ensures exists k :: k in leases && leases[k].nextRenewAt == at
      ensures forall k :: k in leases ==> at <= leases[k].nextRenewAt
    {
      var first :| first in leases;
      at := leases[first].nextRenewAt;
      var rest := leases.Keys;
      while rest != {}
        invariant rest <= leases.Keys
        invariant exists k :: k in leases && leases[k].nextRenewAt == at
        invariant forall k :: k in leases && k !in rest ==> at <= leases[k].nextRenewAt
        decreases |rest|
      {
        var k :| k in rest;
        if leases[k].nextRenewAt < at { at := leases[k].nextRenewAt; }
        rest := rest - {k};
      }
    }

    /** The copies taken before the mutex is released: exactly the leases that are due. */
    method CollectDue(now: int) returns (due: seq<Lease>)
      requires Valid()
      ensures DistinctKeys(due)
      ensures forall i :: 0 <= i < |due| ==> due[i].key in leases && leases[due[i].key] == due[i] && due[i].nextRenewAt <= now
      ensures forall k :: k in leases && leases[k].nextRenewAt <= now ==> leases[k] in due
    {
      due := [];
      var rest := leases.Keys;
      while rest != {}
        invariant rest <= leases.Keys
        invariant DistinctKeys(due)
        invariant forall i :: 0 <= i < |due| ==>
          due[i].key !in rest && due[i].key in leases && leases[due[i].key] == due[i] && due[i].nextRenewAt <= now
        invariant forall k :: k in leases && k !in rest && leases[k].nextRenewAt <= now ==> leases[k] in due
        decreases |rest|
      {
        var k :| k in rest;
        if leases[k].nextRenewAt <= now { due := due + [leases[k]]; }
        rest := rest - {k};
      }
    }

    /** After the renewals, with the mutex taken again at `now`. */
    method Settle(due: seq<Lease>, lost: seq<Lease>, now: int)
      requires Valid() && DistinctKeys(due)
      modifies this`leases, this`canceled
      ensures Valid() && leases == Settled(old(leases), due, lost, now)
      ensures canceled == old(canceled) + Sources(Canceled(old(leases), due, lost))
      ensures forall src :: src in canceled && src !in old(canceled) ==>
                exists d :: d in due && IsLost(lost, d)
                            && d.key in old(leases) && old(leases)[d.key].value == d.value && old(leases)[d.key].source == src
    {
      ghost var was := leases;
      var i := 0;
      while i < |due|
        invariant 0 <= i <= |due|
        invariant Keyed(leases) && leases == Settled(was, due[..i], lost, now)
        invariant canceled == old(canceled) + Sources(Canceled(was, due[..i], lost))
      {
        var d := due[i];
        assert due[..i + 1][..i] == due[..i];
        SettledElsewhere(was, due[..i], lost, now, d.key);
        CanceledGrows(was, due, lost, i);
        if d.key in leases && leases[d.key].value == d.value && IsLost(lost, d) {
          canceled := canceled + {leases[d.key].source};
          leases := leases - {d.key};
        } else if d.key in leases && leases[d.key].value == d.value {
          leases := leases[d.key := leases[d.key].(nextRenewAt := now + Period(d.ttl))];
        }
        i := i + 1;
      }
      assert due[..i] == due;
      forall src | src in canceled && src !in old(canceled)
        ensures exists d :: d in due && IsLost(lost, d)
                            && d.key in was && was[d.key].value == d.value && was[d.key].source == src
      {
        var l :| l in Canceled(was, due, lost) && l.source == src;
        var j :| 0 <= j < |due| && Same(was, due[j]) && IsLost(lost, due[j]) && was[due[j].key] == l;
        assert due[j] in due;
      }
    }
  }

  lemma CanceledGrows(leases: Table, due: seq<Lease>, lost: seq<Lease>, i: nat)
    requires i < |due|
    ensures Canceled(leases, due[..i + 1], lost) == Canceled(leases, due[..i], lost) +
            (if Same(leases, due[i]) && IsLost(lost, due[i]) then {leases[due[i].key]} else {})
  {
    var p, q := due[..i], due[..i + 1];
    assert q[i] == due[i];
    forall s | s in Canceled(leases, p, lost) ensures s in Canceled(leases, q, lost) {
      var j :| 0 <= j < |p| && Same(leases, p[j]) && IsLost(lost, p[j]) && leases[p[j].key] == s;
      assert q[j] == p[j];
    }
    forall s | s in Canceled(leases, q, lost)
      ensures s in Canceled(leases, p, lost) || (Same(leases, due[i]) && IsLost(lost, due[i]) && s == leases[due[i].key])
    {
      var j :| 0 <= j < |q| && Same(leases, q[j]) && IsLost(lost, q[j]) && leases[q[j].key] == s;
      if j < i { assert p[j] == q[j]; }
    }
  }

  // ---------------------------------------------------------------- batches

  /** The leases of the batch whose renewal failed, in batch order. */
  function LostOf(due: seq<Lease>, results: seq<bool>): seq<Lease>
    requires |results| <= |due|
  {
    if results == [] then []
    else
      var n := |results| - 1;
      LostOf(due, results[..n]) + (if results[n] then [] else [due[n]])
  }

  lemma {:induction false} LostExactly(due: seq<Lease>, results: seq<bool>, i: nat)
    requires DistinctKeys(due) && |results| <= |due| && i < |due|
    ensures IsLost(LostOf(due, results), due[i]) <==> i < |results| && !results[i]
    decreases |results|
  {
    if results != [] {
      var n := |results| - 1;
      var before := LostOf(due, results[..n]);
      var lost := LostOf(due, results);
      LostExactly(due, results[..n], i);
      if IsLost(before, due[i]) {
        var j :| 0 <= j < |before| && before[j].key == due[i].key && before[j].value == due[i].value;
        assert lost[j] == before[j];
      }
      if IsLost(lost, due[i]) && !IsLost(before, due[i]) {
        var j :| 0 <= j < |lost| && lost[j].key == due[i].key && lost[j].value == due[i].value;
        assert j >= |before|;
      }
      if i == n && !results[n] { assert lost[|lost| - 1] == due[n]; }
    }
  }

  /**
   Exactly what a batch cancels: a source is canceled if and only if some renewal failed whose key the
   table at relock holds with the same value and that source.
   */
  lemma CanceledExactly(leases: Table, due: seq<Lease>, results: seq<bool>, src: Source)
    requires DistinctKeys(due) && |results| == |due|
    ensures src in Sources(Canceled(leases, due, LostOf(due, results))) <==>
            exists i :: 0 <= i < |due| && !results[i] && due[i].key in leases
                        && leases[due[i].key].value == due[i].value && leases[due[i].key].source == src
  {
    var lost := LostOf(due, results);
    if src in Sources(Canceled(leases, due, lost)) {
      var l :| l in Canceled(leases, due, lost) && l.source == src;
      var i :| 0 <= i < |due| && Same(leases, due[i]) && IsLost(lost, due[i]) && leases[due[i].key] == l;
      LostExactly(due, results, i);
    }
    if i :| 0 <= i < |due| && !results[i] && due[i].key in leases
            && leases[due[i].key].value == due[i].value && leases[due[i].key].source == src {
      LostExactly(due, results, i);
      assert leases[due[i].key] in Canceled(leases, due, lost);
    }
  }

  /**
   Renewer identity: whatever was added and removed while the mutex was free, a lease of the batch
   whose value is no longer registered under its key leaves that key alone and cancels nothing there;
   one that still is goes, canceled, when its own renewal failed, and otherwise stays with a new
   deadline.
   */
  lemma RenewerIdentity(leases: Table, due: seq<Lease>, results: seq<bool>, now: int, i: nat)
    requires Keyed(leases) && DistinctKeys(due) && |results| == |due| && i < |due|
    ensures var d := due[i]; var lost := LostOf(due, results); var m := Settled(leases, due, lost, now);
            var canceled := Canceled(leases, due, lost);
            if !(d.key in leases && leases[d.key].value == d.value) then
              && (d.key in m <==> d.key in leases) && (d.key in m ==> m[d.key] == leases[d.key])
              && (d.key in leases ==> leases[d.key] !in canceled)
            else if results[i] then
              && d.key in m && m[d.key] == leases[d.key].(nextRenewAt := now + 1000 * Max(1, d.ttl / 3))
              && leases[d.key] !in canceled
            else d.key !in m && leases[d.key] in canceled
  {
    var d, lost := due[i], LostOf(due, results);
    LostExactly(due, results, i);
    SettledAt(leases, due, lost, now, i);
    if d.key in leases && leases[d.key] in Canceled(leases, due, lost) {
      var j :| 0 <= j < |due| && Same(leases, due[j]) && IsLost(lost, due[j]) && leases[due[j].key] == leases[d.key];
      assert leases[due[j].key].key == due[j].key;
      assert i == j;
    }
  }

  // ---------------------------------------------------------------- the thread among the others

  datatype Phase = Idle | Renewing(due: seq<Lease>, results: seq<bool>)

  /**
   The renewer and what it has done: `failed` records the renewals Redis refused, `cancels` the
   leases whose source the renewer canceled.
   */
  datatype State = State(leases: Table, phase: Phase, failed: set<(Key, Value)>, cancels: set<Lease>)

  datatype Event =
    | Add(k: Key, v: Value, ttl: nat, source: Source, now: int)
    | Remove(k: Key, v: Value)
    | Collect(due: seq<Lease>, now: int)
    | Renewed(ok: bool)
    | Settle(now: int)

  ghost predicate Enabled(s: State, ev: Event) {
    match ev
    case Add(_, _, _, _, _) => true
    case Remove(_, _) => true
    case Collect(due, now) =>
      && s.phase.Idle? && DistinctKeys(due)
      && (forall i :: 0 <= i < |due| ==> due[i].key in s.leases && s.leases[due[i].key] == due[i] && due[i].nextRenewAt <= now)
    case Renewed(_) => s.phase.Renewing? && |s.phase.results| < |s.phase.due|
    case Settle(_) => s.phase.Renewing? && |s.phase.results| == |s.phase.due| && DistinctKeys(s.phase.due)
  }

  ghost function Apply(s: State, ev: Event): State
    requires Enabled(s, ev)
  {
    match ev
    case Add(k, v, ttl, source, now) =>
      s.(leases := s.leases[k := Lease(k, v, ttl, now + Period(ttl), source)])
    case Remove(k, v) =>
      s.(leases := if k in s.leases && s.leases[k].value == v then s.leases - {k} else s.leases)
    case Collect(due, _) => s.(phase := Renewing(due, []))
    case Renewed(ok) =>
      var d := s.phase.due[|s.phase.results|];
      s.(phase := Renewing(s.phase.due, s.phase.results + [ok]),
         failed := if ok then s.failed else s.failed + {(d.key, d.value)})
    case Settle(now) =>
      var lost := LostOf(s.phase.due, s.phase.results);
      s.(leases := Settled(s.leases, s.phase.due, lost, now), phase := Idle,
         cancels := s.cancels + Canceled(s.leases, s.phase.due, lost))
  }

  ghost predicate Inv(s: State) {
    && Keyed(s.leases)
    && (s.phase.Renewing? ==>
          && DistinctKeys(s.phase.due) && |s.phase.results| <= |s.phase.due|
          && forall i :: 0 <= i < |s.phase.results| && !s.phase.results[i] ==>
               (s.phase.due[i].key, s.phase.due[i].value) in s.failed)
    && (forall l :: l in s.cancels ==> (l.key, l.value) in s.failed)
  }

  /** A lease leaves the table by settling only after its own renewal failed. */
  lemma DroppedFailed(s: State, now: int, k: Key)
    requires Inv(s) && Enabled(s, Settle(now))
    requires k in s.leases && k !in Apply(s, Settle(now)).leases
    ensures (k, s.leases[k].value) in s.failed
  {
    var due, results := s.phase.due, s.phase.results;
    if i :| 0 <= i < |due| && due[i].key == k {
      RenewerIdentity(s.leases, due, results, now, i);
    } else {
      SettledElsewhere(s.leases, due, LostOf(due, results), now, k);
    }
  }

  /** A lease is canceled by settling only after its own renewal failed. */
  lemma CanceledFailed(s: State, l: Lease)
    requires Inv(s) && s.phase.Renewing? && |s.phase.results| == |s.phase.due|
    requires l in Canceled(s.leases, s.phase.due, LostOf(s.phase.due, s.phase.results))
    ensures (l.key, l.value) in s.failed
  {
    var due, results := s.phase.due, s.phase.results;
    var lost := LostOf(due, results);
    var i :| 0 <= i < |due| && Same(s.leases, due[i]) && IsLost(lost, due[i]) && s.leases[due[i].key] == l;
    LostExactly(due, results, i);
  }

  lemma {:induction false} SettledKeyed(leases: Table, due: seq<Lease>, lost: seq<Lease>, now: int)
    requires Keyed(leases) && DistinctKeys(due)
    ensures Keyed(Settled(leases, due, lost, now))
    decreases |due|
  {
    if due != [] { SettledKeyed(leases, due[..|due| - 1], lost, now); }
  }

  lemma StepKeepsInv(s: State, ev: Event)
    requires Inv(s) && Enabled(s, ev)
    ensures Inv(Apply(s, ev))
  {
    if ev.Settle? {
      SettledKeyed(s.leases, s.phase.due, LostOf(s.phase.due, s.phase.results), ev.now);
      forall l | l in Apply(s, ev).cancels ensures (l.key, l.value) in s.failed {
        if l !in s.cancels { CanceledFailed(s, l); }
      }
    }
  }

  ghost predicate IsRun(s: State, evs: seq<Event>)
    decreases |evs|
  {
    evs == [] || (Enabled(s, evs[0]) && IsRun(Apply(s, evs[0]), evs[1..]))
  }

  ghost function After(s: State, evs: seq<Event>): State
    requires IsRun(s, evs)
    decreases |evs|
  {
    if evs == [] then s else After(Apply(s, evs[0]), evs[1..])
  }

  /** Over any interleaving: the renewer cancels a lease only after Redis refused that very key and value. */
  lemma {:induction false} CanceledOnlyAfterFailure(s: State, evs: seq<Event>)
    requires Inv(s) && IsRun(s, evs)
    ensures Inv(After(s, evs))
    ensures forall l :: l in After(s, evs).cancels ==> (l.key, l.value) in After(s, evs).failed
    ensures s.cancels <= After(s, evs).cancels
    decreases |evs|
  {
    if evs != [] {
      StepKeepsInv(s, evs[0]);
      CanceledOnlyAfterFailure(Apply(s, evs[0]), evs[1..]);
    }
  }
}
