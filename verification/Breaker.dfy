/**
 The circuit breaker of RpcClientPool, one endpoint at a time: what each critical section does to
 the endpoint's state, and every interleaving of the callers that share it.
 */
module Breaker {
  datatype Circuit = Closed | Open | HalfOpen

  datatype Endpoint = Endpoint(circuit: Circuit, failures: nat, until: int, probing: bool)

  /** Times are milliseconds of the steady clock. */
  datatype Options = Options(maxIdle: nat, threshold: int, cooldown: int, healthCheckTimeout: int)

  const FRESH := Endpoint(Closed, 0, 0, false)

  /** The pool corrects its options once, when it is built. */
  function Corrected(o: Options): (r: Options)
    ensures r.maxIdle >= 1 && r.threshold >= 1 && r.cooldown >= 0 && r.healthCheckTimeout > 0
    ensures o.maxIdle >= 1 && o.threshold >= 1 && o.cooldown >= 0 && o.healthCheckTimeout > 0 ==> r == o
  {
    Options(if o.maxIdle == 0 then 1 else o.maxIdle,
            if o.threshold <= 0 then 1 else o.threshold,
            if o.cooldown < 0 then 0 else o.cooldown,
            if o.healthCheckTimeout <= 0 then 500 else o.healthCheckTimeout)
  }

  predicate Healthy(e: Endpoint, at: int) {
    match e.circuit
    case Closed => true
    case Open => at >= e.until && !e.probing
    case HalfOpen => false
  }

  predicate CanReserve(e: Endpoint, at: int) {
    e.circuit == Open && at >= e.until && !e.probing
  }

  function Reserved(e: Endpoint): Endpoint {
    e.(circuit := HalfOpen, probing := true)
  }

  function Succeeded(e: Endpoint): Endpoint {
    Endpoint(Closed, 0, 0, false)
  }

  function Failed(e: Endpoint, o: Options, now: int): Endpoint {
    if e.failures + 1 >= o.threshold then Endpoint(Open, e.failures + 1, now + o.cooldown, false)
    else e.(failures := e.failures + 1)
  }

  function Ended(e: Endpoint, o: Options, now: int, ok: bool): Endpoint {
    if ok then Succeeded(e) else Failed(e, o, now)
  }

  // ---------- callers interleaved on one endpoint ----------

  type Caller = nat

  /** Where a caller is between its critical sections; `at` is its one clock sample. */
  datatype Stage = Sampled(at: int) | Refused(at: int) | Probing(k: nat) | Sending

  /** Why a request was sent: the gate let it pass, seeing that circuit, or the caller's own probe had just succeeded. */
  datatype Pass = ThroughGate(seen: Circuit) | OwnProbe

  /**
   probes holds the time of every successful reservation, sent the reason of every ordinary request,
   outcomes every success and failure recorded, failedAt when the last failure was.
   */
  datatype World = World(e: Endpoint, now: int, callers: map<Caller, Stage>,
                         probes: seq<int>, sent: seq<Pass>, outcomes: seq<bool>, failedAt: int)

  datatype Event =
    | Tick(d: nat)
    | Sample(c: Caller)
    | Reserve(c: Caller)
    | ProbeDone(c: Caller, ok: bool)
    | Gate(c: Caller)
    | CallDone(c: Caller, ok: bool)
    | BadName                           // a call finds that the endpoint's name does not parse

  const START := World(FRESH, 0, map[], [], [], [], 0)

  predicate Enabled(s: World, ev: Event) {
    match ev
    case Tick(_) => true
    case Sample(c) => c !in s.callers
    case Reserve(c) => c in s.callers && s.callers[c].Sampled?
    case ProbeDone(c, _) => c in s.callers && s.callers[c].Probing?
    case Gate(c) => c in s.callers && s.callers[c].Refused?
    case CallDone(c, _) => c in s.callers && s.callers[c].Sending?
    case BadName => true
  }

  /** An outcome is recorded. */
  function Recorded(s: World, o: Options, ok: bool): World {
    s.(e := Ended(s.e, o, s.now, ok), outcomes := s.outcomes + [ok], failedAt := if ok then s.failedAt else s.now)
  }

  function Step(s: World, o: Options, ev: Event): World
    requires Enabled(s, ev)
  {
    match ev
    case Tick(d) => s.(now := s.now + d)
    case Sample(c) => s.(callers := s.callers[c := Sampled(s.now)])
    case Reserve(c) =>
      if CanReserve(s.e, s.callers[c].at) then
        s.(e := Reserved(s.e), callers := s.callers[c := Probing(|s.probes|)], probes := s.probes + [s.now])
      else s.(callers := s.callers[c := Refused(s.callers[c].at)])
    case ProbeDone(c, ok) =>
      var t := Recorded(s, o, ok);
      if ok then t.(callers := s.callers[c := Sending], sent := s.sent + [OwnProbe])
      else t.(callers := s.callers - {c})
    case Gate(c) =>
      if Healthy(s.e, s.callers[c].at) then
        s.(callers := s.callers[c := Sending], sent := s.sent + [ThroughGate(s.e.circuit)])
      else s.(callers := s.callers - {c})
    case CallDone(c, ok) => Recorded(s, o, ok).(callers := s.callers - {c})
    case BadName => Recorded(s, o, false)
  }

  ghost predicate IsRun(s: World, o: Options, evs: seq<Event>)
    decreases |evs|, 0
  {
    evs == [] || (IsRun(s, o, evs[..|evs| - 1])
                  && Enabled(After(s, o, evs[..|evs| - 1]), evs[|evs| - 1]))
  }

  ghost function After(s: World, o: Options, evs: seq<Event>): World
    requires IsRun(s, o, evs)
    decreases |evs|, 1
  {
    if evs == [] then s else Step(After(s, o, evs[..|evs| - 1]), o, evs[|evs| - 1])
  }

  // ---------- the breaker is never stuck half-open ----------

  /** The failures recorded since the last success. */
  function Streak(outcomes: seq<bool>): nat {
    if outcomes == [] || outcomes[|outcomes| - 1] then 0 else Streak(outcomes[..|outcomes| - 1]) + 1
  }

  /** The endpoint's fields agree with each other and with what has been recorded. */
  predicate Agrees(s: World, o: Options) {
    && (s.e.circuit == HalfOpen <==> s.e.probing)
    && s.e.failures == Streak(s.outcomes)
    && (s.e.circuit == Closed <==> s.e.failures < o.threshold)
    && (s.e.circuit != Closed ==> s.e.until == s.failedAt + o.cooldown)
  }

  /** A half-open circuit has its probe flag up and the caller of the newest reservation at work on it. */
  ghost predicate Sane(s: World, o: Options) {
    Agrees(s, o) && (s.e.circuit == HalfOpen ==> HasProber(s, |s.probes| - 1))
  }

  ghost predicate HasProber(s: World, k: int) {
    exists c :: c in s.callers && s.callers[c].Probing? && s.callers[c].k == k
  }

  // ---------- probes are spaced by the cooldown ----------

  ghost predicate Spaced(s: World, o: Options) {
    && (forall i :: 0 <= i < |s.probes| ==> s.probes[i] <= s.now)
    && (s.e.circuit == Open && s.probes != [] ==> s.e.until >= s.probes[|s.probes| - 1] + o.cooldown)
    && (forall i :: 0 < i < |s.probes| ==> s.probes[i] >= s.probes[i - 1] + o.cooldown)
  }

  // ---------- the gate ----------

  /** A refused caller's sample is before the end of any cooldown that has begun meanwhile. */
  predicate StageOk(s: World, o: Options, st: Stage) {
    match st
    case Sampled(at) => at <= s.now
    case Refused(at) => at <= s.now && (o.cooldown > 0 && s.e.circuit == Open ==> at < s.e.until)
    case Probing(k) => k < |s.probes|
    case Sending => true
  }

  predicate SameProbe(a: Stage, b: Stage) {
    a.Probing? && b.Probing? && a.k == b.k
  }

  ghost predicate StagesOk(s: World, o: Options) {
    && (forall c :: c in s.callers ==> StageOk(s, o, s.callers[c]))
    && (forall c, d :: c in s.callers && d in s.callers && SameProbe(s.callers[c], s.callers[d]) ==> c == d)
  }

  /** Every ordinary request went out through a closed circuit or after the caller's own probe. */
  ghost predicate Gated(s: World) {
    forall p :: p in s.sent ==> p == ThroughGate(Closed) || p == OwnProbe
  }

  ghost predicate Inv(s: World, o: Options) {
    Sane(s, o) && Spaced(s, o) && StagesOk(s, o) && (o.cooldown > 0 ==> Gated(s))
  }

  lemma RecordedAgrees(s: World, o: Options, ok: bool)
    requires o.threshold >= 1 && Agrees(s, o)
    ensures Agrees(Recorded(s, o, ok), o)
  {
    assert (s.outcomes + [ok])[..|s.outcomes|] == s.outcomes;
  }

  lemma StepKeepsAgreement(s: World, o: Options, ev: Event)
    requires o.threshold >= 1 && Agrees(s, o) && Enabled(s, ev)
    ensures Agrees(Step(s, o, ev), o)
  {
    if ev.ProbeDone? || ev.CallDone? { RecordedAgrees(s, o, ev.ok); }
    if ev.BadName? { RecordedAgrees(s, o, false); }
  }

  lemma StepKeepsSane(s: World, o: Options, ev: Event)
    requires o.threshold >= 1 && Inv(s, o) && Enabled(s, ev)
    ensures Sane(Step(s, o, ev), o)
  {
    var t := Step(s, o, ev);
    StepKeepsAgreement(s, o, ev);
    if t.e.circuit == HalfOpen {
      if s.e.circuit != HalfOpen {
        assert t.callers[ev.c] == Probing(|s.probes|);
      } else {
        var c :| c in s.callers && s.callers[c].Probing? && s.callers[c].k == |s.probes| - 1;
        assert c in t.callers && t.callers[c] == s.callers[c];
      }
    }
  }

  lemma StepKeepsSpaced(s: World, o: Options, ev: Event)
    requires o.cooldown >= 0 && Inv(s, o) && Enabled(s, ev)
    ensures Spaced(Step(s, o, ev), o)
  {
    if ev.Reserve? {
      assert StageOk(s, o, s.callers[ev.c]);
    }
  }

  lemma StepKeepsStages(s: World, o: Options, ev: Event)
    requires o.cooldown >= 0 && Inv(s, o) && Enabled(s, ev)
    ensures StagesOk(Step(s, o, ev), o)
  {
    var t := Step(s, o, ev);
    forall c | c in t.callers ensures StageOk(t, o, t.callers[c]) {
      assert c in s.callers ==> StageOk(s, o, s.callers[c]);
    }
  }

  lemma StepKeepsGated(s: World, o: Options, ev: Event)
    requires o.cooldown > 0 && Inv(s, o) && Enabled(s, ev)
    ensures Gated(Step(s, o, ev))
  {
    if ev.Gate? {
      assert StageOk(s, o, s.callers[ev.c]);
    }
  }

  lemma {:induction false} RunKeepsInv(o: Options, evs: seq<Event>)
    requires o.threshold >= 1 && o.cooldown >= 0 && IsRun(START, o, evs)
    ensures Inv(After(START, o, evs), o)
    decreases |evs|
  {
    if evs != [] {
      var before := evs[..|evs| - 1];
      RunKeepsInv(o, before);
      var s, ev := After(START, o, before), evs[|evs| - 1];
      StepKeepsSane(s, o, ev);
      StepKeepsSpaced(s, o, ev);
      StepKeepsStages(s, o, ev);
      if o.cooldown > 0 { StepKeepsGated(s, o, ev); }
    }
  }

  /**
   In every reachable state the circuit is half-open exactly while a probe is marked in flight, it
   is then some caller's turn to end that probe, and ending any probe leaves it closed or open.
   */
  lemma NeverStuck(o: Options, evs: seq<Event>, c: Caller, ok: bool)
    requires o.threshold >= 1 && o.cooldown >= 0 && IsRun(START, o, evs)
    ensures var s := After(START, o, evs);
            && (s.e.circuit == HalfOpen <==> s.e.probing)
            && (s.e.circuit != Closed ==> s.e.failures >= o.threshold)
            && (s.e.circuit == HalfOpen ==> exists d :: Enabled(s, ProbeDone(d, ok)))
            && (Enabled(s, ProbeDone(c, ok)) ==> Step(s, o, ProbeDone(c, ok)).e.circuit != HalfOpen)
  {
    RunKeepsInv(o, evs);
    var s := After(START, o, evs);
    if s.e.circuit == HalfOpen {
      var d :| d in s.callers && s.callers[d].Probing?;
      assert Enabled(s, ProbeDone(d, ok));
    }
  }

  /**
   In every reachable state, however the outcomes of concurrent calls and probes arrive, the circuit
   is closed exactly when fewer failures than the threshold have been recorded since a success.
   */
  lemma ClosedExactly(o: Options, evs: seq<Event>)
    requires o.threshold >= 1 && o.cooldown >= 0 && IsRun(START, o, evs)
    ensures var s := After(START, o, evs); s.e.circuit == Closed <==> Streak(s.outcomes) < o.threshold
  {
    RunKeepsInv(o, evs);
  }

  /**
   In every reachable state a caller that finds the circuit open gets a probe exactly when a cooldown
   had passed since the last recorded failure when the caller looked at the clock.
   */
  lemma ProbedExactly(o: Options, evs: seq<Event>, c: Caller)
    requires o.threshold >= 1 && o.cooldown >= 0 && IsRun(START, o, evs)
    requires Enabled(After(START, o, evs), Reserve(c))
    ensures var s := After(START, o, evs); var t := Step(s, o, Reserve(c));
            if s.e.circuit == Open && s.callers[c].at >= s.failedAt + o.cooldown
            then t.callers[c].Probing? && t.e.circuit == HalfOpen && t.probes == s.probes + [s.now]
            else t.callers[c] == Refused(s.callers[c].at) && t.e == s.e && t.probes == s.probes
  {
    RunKeepsInv(o, evs);
  }

  /** And a caller passes the gate exactly if it finds the circuit closed, when there is a cooldown. */
  lemma GatedExactly(o: Options, evs: seq<Event>, c: Caller)
    requires o.threshold >= 1 && o.cooldown > 0 && IsRun(START, o, evs)
    requires Enabled(After(START, o, evs), Gate(c))
    ensures var s := After(START, o, evs); var t := Step(s, o, Gate(c));
            if s.e.circuit == Closed then t.callers == s.callers[c := Sending] else t.callers == s.callers - {c}
  {
    RunKeepsInv(o, evs);
    assert StageOk(After(START, o, evs), o, After(START, o, evs).callers[c]);
  }

  lemma {:induction false} Apart(s: World, o: Options, i: nat, j: nat)
    requires Spaced(s, o) && i <= j < |s.probes|
    ensures s.probes[j] - s.probes[i] >= (j - i) * o.cooldown
    decreases j
  {
    if i < j {
      Apart(s, o, i, j - 1);
      OneMore(j - 1 - i, o.cooldown);
    }
  }

  lemma OneMore(a: int, b: int)
    ensures (a + 1) * b == a * b + b
  {
  }

  lemma OlderThanCooldown(s: World, o: Options, i: nat, j: nat)
    requires o.cooldown >= 0 && Spaced(s, o) && i < j < |s.probes|
    ensures s.now >= s.probes[i] + o.cooldown
  {
    Apart(s, o, i + 1, j);
    NotNegative(j - (i + 1), o.cooldown);
  }

  lemma NotNegative(a: nat, b: int)
    requires b >= 0
    ensures a * b >= 0
  {
  }

  /** However late the outcomes of other calls arrive, the i-th and the j-th probe are j - i cooldowns apart. */
  lemma ProbeSpacing(o: Options, evs: seq<Event>, i: nat, j: nat)
    requires o.threshold >= 1 && o.cooldown >= 0 && IsRun(START, o, evs)
    requires i <= j < |After(START, o, evs).probes|
    ensures var p := After(START, o, evs).probes; p[j] - p[i] >= (j - i) * o.cooldown
  {
    RunKeepsInv(o, evs);
    Apart(After(START, o, evs), o, i, j);
  }

  /** So while every probe in flight is younger than the cooldown, at most one is in flight. */
  lemma ProbesDoNotOverlap(o: Options, evs: seq<Event>, c: Caller, d: Caller)
    requires o.threshold >= 1 && o.cooldown >= 0 && IsRun(START, o, evs)
    requires var s := After(START, o, evs); c in s.callers && d in s.callers && s.callers[c].Probing? && s.callers[d].Probing?
    ensures var s := After(START, o, evs); s.callers[c].k < |s.probes| && s.callers[d].k < |s.probes|
    ensures var s := After(START, o, evs);
            s.now < s.probes[s.callers[c].k] + o.cooldown && s.now < s.probes[s.callers[d].k] + o.cooldown ==> c == d
  {
    RunKeepsInv(o, evs);
    var s := After(START, o, evs);
    assert StageOk(s, o, s.callers[c]) && StageOk(s, o, s.callers[d]);
    var i, j := s.callers[c].k, s.callers[d].k;
    if i < j {
      OlderThanCooldown(s, o, i, j);
    } else if j < i {
      OlderThanCooldown(s, o, j, i);
    } else {
      assert SameProbe(s.callers[c], s.callers[d]);
    }
  }

  // ---------- exactly when the gate is sound ----------

  ghost predicate GateSound(o: Options) {
    forall evs :: IsRun(START, o, evs) ==> Gated(After(START, o, evs))
  }

  /** Caller 0 is refused a probe, then caller 1 makes n calls that fail, all within one clock tick. */
  function Failures(n: nat): seq<Event> {
    if n == 0 then [] + [Sample(0)] + [Reserve(0)]
    else Failures(n - 1) + [Sample(1)] + [Reserve(1)] + [Gate(1)] + [CallDone(1, false)]
  }

  lemma Snoc(s: World, o: Options, evs: seq<Event>, ev: Event)
    requires IsRun(s, o, evs) && Enabled(After(s, o, evs), ev)
    ensures IsRun(s, o, evs + [ev]) && After(s, o, evs + [ev]) == Step(After(s, o, evs), o, ev)
  {
    assert (evs + [ev])[..|evs + [ev]| - 1] == evs;
  }

  lemma OneFailure(o: Options, evs: seq<Event>, n: nat)
    requires o.threshold >= 1 && n < o.threshold && IsRun(START, o, evs) && Calls(After(START, o, evs), o, n)
    ensures var r := evs + [Sample(1)] + [Reserve(1)] + [Gate(1)] + [CallDone(1, false)];
            IsRun(START, o, r) && Calls(After(START, o, r), o, n + 1)
  {
    Snoc(START, o, evs, Sample(1));
    var r1 := evs + [Sample(1)];
    Snoc(START, o, r1, Reserve(1));
    var r2 := r1 + [Reserve(1)];
    Snoc(START, o, r2, Gate(1));
    var r3 := r2 + [Gate(1)];
    Snoc(START, o, r3, CallDone(1, false));
  }

  /** Caller 0 still holds the refusal of time 0, and n calls have failed since. */
  predicate Calls(s: World, o: Options, n: nat) {
    && s.now == 0 && 0 in s.callers && s.callers[0] == Refused(0) && 1 !in s.callers
    && s.e == if n < o.threshold then Endpoint(Closed, n, 0, false) else Endpoint(Open, n, o.cooldown, false)
  }

  lemma FirstRefusal(o: Options)
    requires o.threshold >= 1
    ensures IsRun(START, o, [] + [Sample(0)] + [Reserve(0)])
    ensures Calls(After(START, o, [] + [Sample(0)] + [Reserve(0)]), o, 0)
  {
    Snoc(START, o, [], Sample(0));
    Snoc(START, o, [] + [Sample(0)], Reserve(0));
  }

  lemma {:induction false} FailuresRun(o: Options, n: nat)
    requires o.threshold >= 1 && n <= o.threshold
    ensures IsRun(START, o, Failures(n)) && Calls(After(START, o, Failures(n)), o, n)
  {
    if n == 0 {
      FirstRefusal(o);
    } else {
      FailuresRun(o, n - 1);
      OneFailure(o, Failures(n - 1), n - 1);
    }
  }

  /** With no cooldown a request passes the gate of an open circuit that this caller never probed. */
  lemma NoCooldownPassesOpen(o: Options)
    requires o.threshold >= 1 && o.cooldown == 0
    ensures var evs := Failures(o.threshold) + [Gate(0)];
            IsRun(START, o, evs) && ThroughGate(Open) in After(START, o, evs).sent
  {
    var n: nat := o.threshold;
    FailuresRun(o, n);
    Snoc(START, o, Failures(n), Gate(0));
  }

  /** The gate is sound over all runs exactly when the cooldown is positive. */
  lemma GateSoundExactly(o: Options)
    requires o.threshold >= 1 && o.cooldown >= 0
    ensures GateSound(o) <==> o.cooldown > 0
  {
    if o.cooldown > 0 {
      forall evs | IsRun(START, o, evs) ensures Gated(After(START, o, evs)) {
        RunKeepsInv(o, evs);
      }
    } else {
      NoCooldownPassesOpen(o);
    }
  }
}
