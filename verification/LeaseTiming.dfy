/**
 How late a renewal may come. A key is set for `ttl`; its lease is handed to the renewer at most
 `handOver` later; the renewer wakes at most `wake` after a lease is due; and a batch takes at most
 `batch` from waking to settling, with this key's renewal anywhere in between. Milliseconds.
 */
module LeaseTiming {
  import opened Leases
  import Renewer

  datatype Bounds = Bounds(ttlSec: nat, handOver: nat, wake: nat, batch: nat) {
    function Ttl(): nat { 1000 * ttlSec }

    function Period(): nat { Renewer.Period(ttlSec) }

    /** The longest time between setting the key and the renewal after it. */
    function LongestGap(): nat {
      Renewer.Max(handOver, batch) + Period() + wake + batch
    }
  }

  /** One round of the loop: woken, this key renewed, batch settled. */
  datatype Round = Round(woken: int, renewed: int, settled: int)

  /** When the lease was last due to be renewed: a period after it was added or settled. */
  function DueAt(b: Bounds, added: int, rounds: seq<Round>, i: nat): int
    requires i <= |rounds|
  {
    (if i == 0 then added else rounds[i - 1].settled) + b.Period()
  }

  /** The rounds keep to the bounds. */
  ghost predicate Timely(b: Bounds, acquired: int, added: int, rounds: seq<Round>) {
    && acquired <= added <= acquired + b.handOver
    && forall i :: 0 <= i < |rounds| ==>
         && DueAt(b, added, rounds, i) <= rounds[i].woken <= DueAt(b, added, rounds, i) + b.wake
         && rounds[i].woken <= rounds[i].renewed <= rounds[i].settled <= rounds[i].woken + b.batch
  }

  const KEY := 0
  const VALUE := 1

  /** The key in Redis after the first i renewals. */
  function Key(b: Bounds, acquired: int, rounds: seq<Round>, i: nat): map<int, Lock<int>>
    requires i <= |rounds|
  {
    if i == 0 then Acquire(map[], KEY, VALUE, acquired, b.Ttl())
    else Renew(Key(b, acquired, rounds, i - 1), KEY, VALUE, rounds[i - 1].renewed, b.Ttl())
  }

  /** Every renewal finds the key alive, and so it is alive at every instant before it. */
  ghost predicate NeverExpires(b: Bounds, acquired: int, rounds: seq<Round>) {
    forall i, x :: 0 <= i < |rounds| && x <= rounds[i].renewed ==> Held(Key(b, acquired, rounds, i), KEY, VALUE, x)
  }

  /** When the key was last set before renewal i. */
  function SetAt(acquired: int, rounds: seq<Round>, i: nat): int
    requires i <= |rounds|
  {
    if i == 0 then acquired else rounds[i - 1].renewed
  }

  lemma GapBounded(b: Bounds, acquired: int, added: int, rounds: seq<Round>, i: nat)
    requires Timely(b, acquired, added, rounds) && i < |rounds|
    ensures rounds[i].renewed - SetAt(acquired, rounds, i) <= b.LongestGap()
  {
    if i > 0 { assert rounds[i - 1].settled <= rounds[i - 1].renewed + b.batch; }
  }

  lemma {:induction false} KeyLastsUntilRenewal(b: Bounds, acquired: int, rounds: seq<Round>, i: nat)
    requires i <= |rounds|
    requires forall j :: 0 <= j < i ==> rounds[j].renewed < SetAt(acquired, rounds, j) + b.Ttl()
    ensures var m := Key(b, acquired, rounds, i);
            KEY in m && m[KEY].owner == VALUE && m[KEY].expires == SetAt(acquired, rounds, i) + b.Ttl()
    decreases i
  {
    if i > 0 { KeyLastsUntilRenewal(b, acquired, rounds, i - 1); }
  }

  lemma TimelyKeysLast(b: Bounds, acquired: int, added: int, rounds: seq<Round>)
    requires b.LongestGap() < b.Ttl() && Timely(b, acquired, added, rounds)
    ensures NeverExpires(b, acquired, rounds)
  {
    forall j | 0 <= j < |rounds| ensures rounds[j].renewed < SetAt(acquired, rounds, j) + b.Ttl() {
      GapBounded(b, acquired, added, rounds, j);
    }
    forall i, x | 0 <= i < |rounds| && x <= rounds[i].renewed
      ensures Held(Key(b, acquired, rounds, i), KEY, VALUE, x)
    {
      KeyLastsUntilRenewal(b, acquired, rounds, i);
    }
  }

  /** The worst case: handed over late and renewed last; or renewed first in one batch and last in the next. */
  function WorstRounds(b: Bounds): seq<Round> {
    if b.handOver >= b.batch then
      var w := b.handOver + b.Period() + b.wake;
      [Round(w, w + b.batch, w + b.batch)]
    else
      var w := b.Period();
      var w' := w + b.batch + b.Period() + b.wake;
      [Round(w, w, w + b.batch), Round(w', w' + b.batch, w' + b.batch)]
  }

  function WorstAdded(b: Bounds): int {
    if b.handOver >= b.batch then b.handOver else 0
  }

  lemma WorstCaseExpires(b: Bounds)
    requires b.LongestGap() >= b.Ttl()
    ensures Timely(b, 0, WorstAdded(b), WorstRounds(b)) && !NeverExpires(b, 0, WorstRounds(b))
  {
    var rounds := WorstRounds(b);
    var last := |rounds| - 1;
    assert !Held(Key(b, 0, rounds, last), KEY, VALUE, rounds[last].renewed) by {
      if last == 1 {
        assert Key(b, 0, rounds, 0) == map[KEY := Lock(VALUE, b.Ttl())];
      }
    }
  }

  /**
   Exactly how much delay the lease survives, over any number of rounds: the key never expires under
   the bounds if and only if hand-over or batch, whichever is longer, a third of the time to live (at
   least a second), the wake-up and a batch together are shorter than the time to live.
   */
  lemma LeaseTimingExactly(b: Bounds)
    ensures (forall acquired, added, rounds :: Timely(b, acquired, added, rounds) ==> NeverExpires(b, acquired, rounds))
            <==> && b.handOver + 1000 * (if b.ttlSec < 6 then 1 else b.ttlSec / 3) + b.wake + b.batch < 1000 * b.ttlSec
                 && b.batch + 1000 * (if b.ttlSec < 6 then 1 else b.ttlSec / 3) + b.wake + b.batch < 1000 * b.ttlSec
  {
    if b.LongestGap() < b.Ttl() {
      forall acquired, added, rounds | Timely(b, acquired, added, rounds)
        ensures NeverExpires(b, acquired, rounds)
      {
        TimelyKeysLast(b, acquired, added, rounds);
      }
    } else {
      WorstCaseExpires(b);
    }
  }

  /**
   Keeping hand-over, wake-up and batch together below ttl minus the period is not enough: with the
   scheduler's 60 s, no hand-over and no wake-up delay, a 30 s batch lets the key expire.
   */
  lemma SumOfDelaysIsNotEnough() returns (b: Bounds)
    ensures b.ttlSec == 60 && b.handOver + b.wake + b.batch < b.Ttl() - b.Period()
    ensures exists rounds, added :: Timely(b, 0, added, rounds) && !NeverExpires(b, 0, rounds)
  {
    b := Bounds(60, 0, 0, 30_000);
    WorstCaseExpires(b);
  }
}
