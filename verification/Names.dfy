/** The strings that name locks and owners: what is glued together with colons and can be told apart. */
module Names {

  function Colons(s: string): nat {
    if s == "" then 0 else (if s[0] == ':' then 1 else 0) + Colons(s[1..])
  }

  lemma {:induction false} ColonsConcat(a: string, b: string)
    ensures Colons(a + b) == Colons(a) + Colons(b)
    decreases |a|
  {
    if a == "" {
      assert a + b == b;
    } else {
      ColonsConcat(a[1..], b);
      assert (a + b)[1..] == a[1..] + b;
    }
  }

  lemma ColonsJoin(a: string, b: string)
    ensures Colons(a + ":" + b) == Colons(a) + 1 + Colons(b)
  {
    ColonsConcat(a + ":", b);
    ColonsConcat(a, ":");
  }

  /** A colon between two parts is found again when the right parts have equally many colons. */
  lemma SplitUnique(a: string, x: string, b: string, y: string)
    requires a + ":" + x == b + ":" + y && Colons(x) == Colons(y)
    ensures a == b && x == y
  {
    if |x| < |y| {
      SuffixHasMore(a, x, b, y);
    } else if |y| < |x| {
      SuffixHasMore(b, y, a, x);
    } else {
      var s := a + ":" + x;
      var t := b + ":" + y;
      assert a == s[..|a|] && b == t[..|b|];
      assert x == s[|a| + 1..] && y == t[|b| + 1..];
    }
  }

  lemma SuffixHasMore(a: string, x: string, b: string, y: string)
    requires a + ":" + x == b + ":" + y && |x| < |y|
    ensures Colons(x) < Colons(y)
  {
    var s := a + ":" + x;
    assert s == b + ":" + y;
    var z := a[|b| + 1..];
    assert y == s[|b| + 1..];
    assert y == z + ":" + x;
    ColonsJoin(z, x);
  }

  /** next_execution_id: task id, milliseconds and sequence number. */
  function ExecutionId(task: string, ms: string, number: string): string {
    task + ":" + ms + ":" + number
  }

  /** The lock value of a dispatch. */
  function OwnerValue(node: string, exec: string): string {
    node + ":" + exec
  }

  /** The lock value of a recovery. */
  function RecoveryValue(node: string, exec: string): string {
    "recovery:" + node + ":" + exec
  }

  /** Task ids and numbers without colons: an execution id has exactly two. */
  lemma ExecutionIdColons(task: string, ms: string, number: string)
    requires Colons(task) == 0 && Colons(ms) == 0 && Colons(number) == 0
    ensures Colons(ExecutionId(task, ms, number)) == 2
  {
    ColonsJoin(task + ":" + ms, number);
    ColonsJoin(task, ms);
  }

  /**
   Two lock values agree only if node and execution do, whatever colons node ids contain; and a
   dispatch is mistaken for a recovery exactly when its node id is "recovery:" and the other's.
   */
  lemma LockValuesDistinct(n: string, e: string, n': string, e': string)
    requires Colons(e) == Colons(e')
    ensures OwnerValue(n, e) == OwnerValue(n', e') <==> n == n' && e == e'
    ensures RecoveryValue(n, e) == RecoveryValue(n', e') <==> n == n' && e == e'
    ensures OwnerValue(n, e) == RecoveryValue(n', e') <==> n == "recovery:" + n' && e == e'
  {
    if OwnerValue(n, e) == OwnerValue(n', e') { SplitUnique(n, e, n', e'); }
    if RecoveryValue(n, e) == RecoveryValue(n', e') {
      SplitUnique("recovery:" + n, e, "recovery:" + n', e');
      assert ("recovery:" + n)[9..] == n && ("recovery:" + n')[9..] == n';
    }
    if OwnerValue(n, e) == RecoveryValue(n', e') { SplitUnique(n, e, "recovery:" + n', e'); }
  }
}
