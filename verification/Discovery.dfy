/**
 Service discovery in Redis: a set of endpoints per service, and a key with a time to live per
 registration. Both kinds of key live in one key space, under names glued together with colons.
 */
module Discovery {
  import opened Names

  type Name = s: string | s != "" witness "a"

  /** What a key holds: the members of a set, or a registration with its expiry time in milliseconds. */
  datatype Value = Members(s: set<string>) | Lease(expires: int)

  type Store = map<string, Value>

  function SetKey(svc: string): string {
    "services:" + svc
  }

  function NodeKey(svc: string, ep: string): string {
    SetKey(svc) + ":" + ep
  }

  /** Redis deletes a key the moment it expires. */
  predicate Exists(m: Store, k: string, now: int) {
    k in m && (m[k].Lease? ==> now < m[k].expires)
  }

  /** A set command on this key would fail. */
  predicate WrongType(m: Store, k: string, now: int) {
    Exists(m, k, now) && m[k].Lease?
  }

  function MembersOf(m: Store, k: string): set<string> {
    if k in m && m[k].Members? then m[k].s else {}
  }

  /** A set without members is no key at all. */
  function WithMembers(m: Store, k: string, s: set<string>): Store {
    if s == {} then m - {k} else m[k := Members(s)]
  }

  function Registered(m: Store, svc: string, ep: string, ttl: nat, now: int): Store {
    var m1 := m[NodeKey(svc, ep) := Lease(now + 1000 * ttl)];
    if WrongType(m1, SetKey(svc), now) then m1
    else WithMembers(m1, SetKey(svc), MembersOf(m1, SetKey(svc)) + {ep})
  }

  function Unregistered(m: Store, svc: string, ep: string, now: int): Store {
    if WrongType(m, SetKey(svc), now) then m
    else WithMembers(m, SetKey(svc), MembersOf(m, SetKey(svc)) - {ep}) - {NodeKey(svc, ep)}
  }

  /** The endpoints discoverServices returns. */
  function Found(m: Store, svc: string, now: int): set<string> {
    set ep | ep in MembersOf(m, SetKey(svc)) && Exists(m, NodeKey(svc, ep), now)
  }

  /** And what it leaves behind: the endpoints whose key is gone are taken out of the set. */
  function Pruned(m: Store, svc: string, now: int): Store {
    if SetKey(svc) in m && m[SetKey(svc)].Members? then WithMembers(m, SetKey(svc), Found(m, svc, now)) else m
  }

  class RedisServices {
    var store: Store

    constructor ()
      ensures store == map[]
    {
      store := map[];
    }

    method RegisterService(svc: string, ep: string, ttl: int, now: int) returns (ok: bool)
      modifies this
      ensures svc == "" || ep == "" || ttl <= 0 ==> !ok && store == old(store)
      ensures svc != "" && ep != "" && ttl > 0 ==> ok == !WrongType(old(store), SetKey(svc), now)
      ensures svc != "" && ep != "" && ttl > 0 ==>
                store == Registered(old(store), svc, ep, ttl, now) && Exists(store, NodeKey(svc, ep), now)
      ensures ok ==> ep in MembersOf(store, SetKey(svc))
    {
      if svc == "" || ep == "" || ttl <= 0 { return false; }
      var setKey := "services:" + svc;
      var nodeKey := setKey + ":" + ep;
      assert |setKey| < |nodeKey|;
      store := store[nodeKey := Lease(now + 1000 * ttl)];
      if WrongType(store, setKey, now) { return false; }
      store := store[setKey := Members(MembersOf(store, setKey) + {ep})];
      return true;
    }

    method UnregisterService(svc: string, ep: string, now: int)
      modifies this
      ensures store == if svc == "" || ep == "" then old(store) else Unregistered(old(store), svc, ep, now)
      ensures svc != "" && ep != "" && !WrongType(old(store), SetKey(svc), now) ==>
                NodeKey(svc, ep) !in store && MembersOf(store, SetKey(svc)) == MembersOf(old(store), SetKey(svc)) - {ep}
    {
      if svc == "" || ep == "" { return; }
      var setKey := "services:" + svc;
      assert |setKey| < |setKey + ":" + ep|;
      if WrongType(store, setKey, now) { return; }
      store := WithMembers(store, setKey, MembersOf(store, setKey) - {ep});
      store := store - {setKey + ":" + ep};
    }

    /** The script's loop over the members, in whatever order Redis gives them. */
    method DiscoverServices(svc: string, now: int) returns (alive: seq<string>)
      modifies this
      ensures svc == "" ==> alive == [] && store == old(store)
      ensures svc != "" ==> (forall ep :: ep in alive <==> ep in Found(old(store), svc, now))
                            && store == Pruned(old(store), svc, now)
                            && MembersOf(store, SetKey(svc)) == Found(old(store), svc, now)
      ensures forall i, j :: 0 <= i < j < |alive| ==> alive[i] != alive[j]
    {
      alive := [];
      var setKey := "services:" + svc;
      if svc == "" || setKey !in store || store[setKey].Lease? { return; }
      var all := store[setKey].s;
      var members := all;
      var gone: set<string> := {};
      while members != {}
        invariant members <= all && gone <= all && gone !! members
        invariant forall ep :: ep in alive <==> ep in all - members && Exists(old(store), NodeKey(svc, ep), now)
        invariant forall ep :: ep in gone <==> ep in all - members && !Exists(old(store), NodeKey(svc, ep), now)
        invariant forall i, j :: 0 <= i < j < |alive| ==> alive[i] != alive[j]
        invariant store == old(store)
        decreases |members|
      {
        var ep :| ep in members;
        members := members - {ep};
        if Exists(store, setKey + ":" + ep, now) {
          alive := alive + [ep];
        } else {
          gone := gone + {ep};
        }
      }
      assert all - gone == Found(old(store), svc, now);
      store := WithMembers(store, setKey, all - gone);
    }
  }

  // ---------- every interleaving ----------

  /** The store, the clock, and the registrations as their owners see them. */
  datatype World = World(m: Store, now: int, leases: map<(string, string), int>)

  datatype Event =
    | Register(svc: Name, ep: Name, ttl: nat)
    | Unregister(svc: Name, ep: Name)
    | Discover(svc: Name)
    | Tick(d: nat)

  const START := World(map[], 0, map[])

  /** svcs and eps are the names in use; a heartbeat is a registration. */
  predicate Enabled(svcs: set<Name>, eps: set<Name>, ev: Event) {
    match ev
    case Register(svc, ep, ttl) => svc in svcs && ep in eps && ttl > 0
    case Unregister(svc, ep) => svc in svcs && ep in eps
    case Discover(svc) => svc in svcs
    case Tick(_) => true
  }

  function Step(w: World, ev: Event): World {
    match ev
    case Register(svc, ep, ttl) =>
      w.(m := Registered(w.m, svc, ep, ttl, w.now), leases := w.leases[(svc, ep) := w.now + 1000 * ttl])
    case Unregister(svc, ep) => w.(m := Unregistered(w.m, svc, ep, w.now), leases := w.leases - {(svc, ep)})
    case Discover(svc) => w.(m := Pruned(w.m, svc, w.now))
    case Tick(d) => w.(now := w.now + d)
  }

  predicate IsRun(svcs: set<Name>, eps: set<Name>, evs: seq<Event>) {
    forall i :: 0 <= i < |evs| ==> Enabled(svcs, eps, evs[i])
  }

  function After(evs: seq<Event>): World {
    if evs == [] then START else Step(After(evs[..|evs| - 1]), evs[|evs| - 1])
  }

  predicate Leased(w: World, svc: string, ep: string) {
    (svc, ep) in w.leases && w.now < w.leases[(svc, ep)]
  }

  /** Discovery returns exactly the endpoints whose registration is alive. */
  ghost predicate Exact(w: World, svcs: set<Name>) {
    forall svc, ep :: svc in svcs ==> (ep in Found(w.m, svc, w.now) <==> Leased(w, svc, ep))
  }

  // ---------- when the keys can be told apart ----------

  /** No two registrations share a key, and none has the key of a service's set. */
  ghost predicate Clear(svcs: set<Name>, eps: set<Name>) {
    && (forall s, e, s', e' :: s in svcs && e in eps && s' in svcs && e' in eps && NodeKey(s, e) == NodeKey(s', e')
          ==> s == s' && e == e')
    && (forall s, s', e' :: s in svcs && s' in svcs && e' in eps ==> SetKey(s) != NodeKey(s', e'))
  }

  /** Hosts without colons give endpoints with one; then service names may have one, as "worker:handler" does. */
  lemma FewColonsAreClear(svcs: set<Name>, eps: set<Name>)
    requires forall e :: e in eps ==> Colons(e) == 1
    requires forall s :: s in svcs ==> Colons(s) <= 1
    ensures Clear(svcs, eps)
  {
    forall s, e, s', e' | s in svcs && e in eps && s' in svcs && e' in eps && NodeKey(s, e) == NodeKey(s', e')
      ensures s == s' && e == e'
    {
      SplitUnique(SetKey(s), e, SetKey(s'), e');
      assert SetKey(s)[9..] == s && SetKey(s')[9..] == s';
    }
    forall s, s', e' | s in svcs && s' in svcs && e' in eps ensures SetKey(s) != NodeKey(s', e') {
      ColonsConcat("services:", s);
      ColonsConcat("services:", s');
      ColonsJoin(SetKey(s'), e');
    }
  }

  // ---------- the invariant ----------

  /** A registration and its key come and go together, and a live one is in its service's set. */
  predicate Agrees(w: World, svc: string, ep: string) {
    var k := NodeKey(svc, ep);
    && ((svc, ep) in w.leases <==> k in w.m)
    && (k in w.m ==> w.m[k] == Lease(w.leases[(svc, ep)]))
    && (Leased(w, svc, ep) ==> ep in MembersOf(w.m, SetKey(svc)))
  }

  predicate SetOk(w: World, svc: string, eps: set<Name>) {
    SetKey(svc) in w.m ==> w.m[SetKey(svc)].Members? && forall ep :: ep in w.m[SetKey(svc)].s ==> ep in eps
  }

  ghost predicate Inv(w: World, svcs: set<Name>, eps: set<Name>) {
    && (forall svc :: svc in svcs ==> SetOk(w, svc, eps))
    && (forall svc, ep :: svc in svcs && ep in eps ==> Agrees(w, svc, ep))
    && (forall p :: p in w.leases ==> p.0 in svcs && p.1 in eps)
  }

  lemma SetKeysDiffer(s: string, t: string)
    ensures SetKey(s) == SetKey(t) <==> s == t
  {
    assert SetKey(s)[9..] == s && SetKey(t)[9..] == t;
  }

  lemma SameService(s: string, e: string, e': string)
    ensures NodeKey(s, e) == NodeKey(s, e') <==> e == e'
  {
    var n := |SetKey(s)| + 1;
    assert NodeKey(s, e)[n..] == e && NodeKey(s, e')[n..] == e';
  }

  lemma NodeKeyLonger(s: string, e: string)
    ensures |NodeKey(s, e)| > |SetKey(s)|
  {
  }

  /** What a step may touch: one registration's key and one service's set, which only grows or loses dead members. */
  ghost predicate Touches(w: World, t: World, s: Name, e: Name) {
    && t.now >= w.now
    && (forall k :: k != NodeKey(s, e) && k != SetKey(s) ==> (k in t.m <==> k in w.m) && (k in w.m ==> t.m[k] == w.m[k]))
    && (forall p :: p != (s, e) ==> (p in t.leases <==> p in w.leases) && (p in w.leases ==> t.leases[p] == w.leases[p]))
  }

  lemma OthersAgree(w: World, t: World, svcs: set<Name>, eps: set<Name>, s: Name, e: Name, svc: Name, ep: Name)
    requires Clear(svcs, eps) && Inv(w, svcs, eps) && Touches(w, t, s, e)
    requires s in svcs && e in eps && svc in svcs && ep in eps && (svc, ep) != (s, e)
    requires MembersOf(w.m, SetKey(s)) - {e} <= MembersOf(t.m, SetKey(s))
    ensures Agrees(t, svc, ep)
  {
    assert Agrees(w, svc, ep);
    assert NodeKey(svc, ep) != NodeKey(s, e) && NodeKey(svc, ep) != SetKey(s);
    assert SetKey(svc) != NodeKey(s, e);
    SetKeysDiffer(svc, s);
    var p := (svc, ep);
    assert p in t.leases <==> p in w.leases;
  }

  lemma OthersSetOk(w: World, t: World, svcs: set<Name>, eps: set<Name>, s: Name, e: Name, svc: Name)
    requires Clear(svcs, eps) && Inv(w, svcs, eps) && Touches(w, t, s, e)
    requires s in svcs && e in eps && svc in svcs && svc != s
    ensures SetOk(t, svc, eps)
  {
    assert SetOk(w, svc, eps);
    assert SetKey(svc) != NodeKey(s, e);
    SetKeysDiffer(svc, s);
  }

  /** A step that touches one registration keeps the invariant if it does so for that one. */
  lemma TouchKeepsInv(w: World, t: World, svcs: set<Name>, eps: set<Name>, s: Name, e: Name)
    requires Clear(svcs, eps) && Inv(w, svcs, eps) && Touches(w, t, s, e) && s in svcs && e in eps
    requires MembersOf(w.m, SetKey(s)) - {e} <= MembersOf(t.m, SetKey(s))
    requires SetOk(t, s, eps) && Agrees(t, s, e)
    ensures Inv(t, svcs, eps)
  {
    forall svc | svc in svcs ensures SetOk(t, svc, eps) {
      if svc != s { OthersSetOk(w, t, svcs, eps, s, e, svc); }
    }
    forall svc, ep | svc in svcs && ep in eps ensures Agrees(t, svc, ep) {
      if (svc, ep) != (s, e) { OthersAgree(w, t, svcs, eps, s, e, svc, ep); }
    }
    forall p | p in t.leases ensures p.0 in svcs && p.1 in eps {
      assert p == (s, e) || p in w.leases;
    }
  }

  lemma RegisterKeepsInv(w: World, svcs: set<Name>, eps: set<Name>, s: Name, e: Name, ttl: nat)
    requires Clear(svcs, eps) && Inv(w, svcs, eps) && s in svcs && e in eps && ttl > 0
    ensures Inv(Step(w, Register(s, e, ttl)), svcs, eps)
  {
    var t := Step(w, Register(s, e, ttl));
    assert SetOk(w, s, eps);
    NodeKeyLonger(s, e);
    TouchKeepsInv(w, t, svcs, eps, s, e);
  }

  lemma UnregisterKeepsInv(w: World, svcs: set<Name>, eps: set<Name>, s: Name, e: Name)
    requires Clear(svcs, eps) && Inv(w, svcs, eps) && s in svcs && e in eps
    ensures Inv(Step(w, Unregister(s, e)), svcs, eps)
  {
    var t := Step(w, Unregister(s, e));
    assert SetOk(w, s, eps);
    NodeKeyLonger(s, e);
    TouchKeepsInv(w, t, svcs, eps, s, e);
  }

  lemma DiscoverKeepsInv(w: World, svcs: set<Name>, eps: set<Name>, s: Name)
    requires Clear(svcs, eps) && Inv(w, svcs, eps) && s in svcs
    ensures Inv(Step(w, Discover(s)), svcs, eps)
  {
    var t := Step(w, Discover(s));
    assert SetOk(w, s, eps);
    forall svc | svc in svcs ensures SetOk(t, svc, eps) {
      assert SetOk(w, svc, eps);
      SetKeysDiffer(svc, s);
    }
    forall svc, ep | svc in svcs && ep in eps ensures Agrees(t, svc, ep) {
      assert Agrees(w, svc, ep);
      assert NodeKey(svc, ep) != SetKey(s);
      SetKeysDiffer(svc, s);
    }
  }

  lemma StepKeepsInv(w: World, svcs: set<Name>, eps: set<Name>, ev: Event)
    requires Clear(svcs, eps) && Inv(w, svcs, eps) && Enabled(svcs, eps, ev)
    ensures Inv(Step(w, ev), svcs, eps)
  {
    match ev
    case Register(s, e, ttl) => RegisterKeepsInv(w, svcs, eps, s, e, ttl);
    case Unregister(s, e) => UnregisterKeepsInv(w, svcs, eps, s, e);
    case Discover(s) => DiscoverKeepsInv(w, svcs, eps, s);
    case Tick(d) =>
      forall svc, ep | svc in svcs && ep in eps ensures Agrees(Step(w, ev), svc, ep) {
        assert Agrees(w, svc, ep);
      }
      forall svc | svc in svcs ensures SetOk(Step(w, ev), svc, eps) {
        assert SetOk(w, svc, eps);
      }
  }

  lemma {:induction false} RunKeepsInv(svcs: set<Name>, eps: set<Name>, evs: seq<Event>)
    requires Clear(svcs, eps) && IsRun(svcs, eps, evs)
    ensures Inv(After(evs), svcs, eps)
    decreases |evs|
  {
    if evs != [] {
      RunKeepsInv(svcs, eps, evs[..|evs| - 1]);
      StepKeepsInv(After(evs[..|evs| - 1]), svcs, eps, evs[|evs| - 1]);
    }
  }

  lemma InvIsExact(w: World, svcs: set<Name>, eps: set<Name>)
    requires Inv(w, svcs, eps)
    ensures Exact(w, svcs)
  {
    forall svc, ep | svc in svcs ensures ep in Found(w.m, svc, w.now) <==> Leased(w, svc, ep) {
      assert SetOk(w, svc, eps);
      var p := (svc, ep);
      if ep in Found(w.m, svc, w.now) || p in w.leases {
        assert ep in eps;
        assert Agrees(w, svc, ep);
      }
    }
  }

  // ---------- exactly when discovery is exact ----------

  ghost predicate AlwaysExact(svcs: set<Name>, eps: set<Name>) {
    forall evs :: IsRun(svcs, eps, evs) ==> Exact(After(evs), svcs)
  }

  lemma FirstRegistration(s: Name, e: Name)
    ensures var w := After([Register(s, e, 1)]);
            && w.now == 0 && w.leases == map[(s, e) := 1000]
            && w.m == map[NodeKey(s, e) := Lease(1000), SetKey(s) := Members({e})]
  {
    var r := [Register(s, e, 1)];
    assert r[..0] == [];
    assert After(r) == Step(START, Register(s, e, 1));
    NodeKeyLonger(s, e);
    var m1: Store := map[NodeKey(s, e) := Lease(1000)];
    assert MembersOf(m1, SetKey(s)) + {e} == {e};
  }

  /** Two registrations with one key: the second keeps the first alive after it has expired. */
  lemma SharedKeyRevives(s: Name, e: Name, s': Name, e': Name)
    requires NodeKey(s, e) == NodeKey(s', e') && s != s'
    ensures var w := After([Register(s, e, 1), Tick(1000), Register(s', e', 1)]);
            e in Found(w.m, s, w.now) && !Leased(w, s, e)
  {
    var r1 := [Register(s, e, 1)];
    var r2 := r1 + [Tick(1000)];
    var r3 := [Register(s, e, 1), Tick(1000), Register(s', e', 1)];
    assert r2[..1] == r1 && r3[..2] == r2;
    FirstRegistration(s, e);
    NodeKeyLonger(s, e);
    NodeKeyLonger(s', e');
    SetKeysDiffer(s, s');
    assert After(r3) == Step(Step(After(r1), Tick(1000)), Register(s', e', 1));
    assert (s, e) != (s', e');
  }

  /** A registration on the key of another service's set: that service loses its live endpoint. */
  lemma SetKeyIsOverwritten(s: Name, s': Name, e': Name)
    requires SetKey(s) == NodeKey(s', e')
    ensures var w := After([Register(s, e', 1), Register(s', e', 1)]);
            e' !in Found(w.m, s, w.now) && Leased(w, s, e')
  {
    var r1 := [Register(s, e', 1)];
    var r2 := [Register(s, e', 1), Register(s', e', 1)];
    assert r2[..1] == r1;
    FirstRegistration(s, e');
    NodeKeyLonger(s, e');
    NodeKeyLonger(s', e');
    assert s != s';
    assert After(r2) == Step(After(r1), Register(s', e', 1));
    assert (s, e') != (s', e');
  }

  /**
   Over all interleavings of registrations, heartbeats, expiry, withdrawals and pruning, discovery
   returns exactly the live endpoints if and only if the names in use give distinct keys.
   */
  lemma DiscoveryExactly(svcs: set<Name>, eps: set<Name>)
    ensures AlwaysExact(svcs, eps) <==> Clear(svcs, eps)
  {
    if Clear(svcs, eps) {
      forall evs | IsRun(svcs, eps, evs) ensures Exact(After(evs), svcs) {
        RunKeepsInv(svcs, eps, evs);
        InvIsExact(After(evs), svcs, eps);
      }
    } else if s, e, s', e' :| s in svcs && e in eps && s' in svcs && e' in eps && NodeKey(s, e) == NodeKey(s', e')
                              && !(s == s' && e == e') {
      SameService(s, e, e');
      SharedKeyRevives(s, e, s', e');
      assert IsRun(svcs, eps, [Register(s, e, 1), Tick(1000), Register(s', e', 1)]);
    } else {
      var s, s', e' :| s in svcs && s' in svcs && e' in eps && SetKey(s) == NodeKey(s', e');
      SetKeyIsOverwritten(s, s', e');
      assert IsRun(svcs, eps, [Register(s, e', 1), Register(s', e', 1)]);
    }
  }
}
