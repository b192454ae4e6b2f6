/** The global IP pool of connected clients (`IPPoolManager`): two maps, public and internal,
    from an address to its reachability status. Adding, removing, listing and status updates
    are modelled; the probes (ping, TCP dial), the clock, the workers and the mutexes are not:
    reachability and the current time are inputs. */
module DynamicIPPool {
  import opened Wrappers

  /** `IPStatus`; `lastChecked` is `None` for Go's zero time (never checked). */
  datatype IPStatus = IPStatus(ip: string, isReachable: bool, lastChecked: Option<int>)

  type Pool = map<string, IPStatus>

  /** The status a newly added address gets: unreachable, never checked. */
  function Unchecked(ip: string): IPStatus {
    IPStatus(ip, false, None)
  }

  /** Every status is filed under its own address. */
  predicate Keyed(pool: Pool) {
    forall k :: k in pool ==> pool[k].ip == k
  }

  /** The non-empty addresses of a list. */
  function NonEmpty(ips: seq<string>): set<string>
    decreases |ips|
  {
    if ips == [] then {}
    else NonEmpty(ips[..|ips| - 1]) + (if ips[|ips| - 1] == "" then {} else {ips[|ips| - 1]})
  }

  /** An address is among the non-empty ones exactly when it is listed and not empty. */
  lemma {:induction false} NonEmptyMeaning(ips: seq<string>)
    ensures forall x :: x in NonEmpty(ips) <==> x in ips && x != ""
    decreases |ips|
  {
    if ips != [] {
      NonEmptyMeaning(ips[..|ips| - 1]);
      assert ips == ips[..|ips| - 1] + [ips[|ips| - 1]];
    }
  }

  lemma NonEmptyAppend(ips: seq<string>, ip: string)
    ensures NonEmpty(ips + [ip]) == NonEmpty(ips) + (if ip == "" then {} else {ip})
  {
    assert (ips + [ip])[..|ips|] == ips;
  }

  /** The addresses of `ips` that were not yet `known`, each once, in order of first
      occurrence: the list `AddIPs` returns for one pool. */
  function NewIPs(known: set<string>, ips: seq<string>): seq<string>
    decreases |ips|
  {
    if ips == [] then []
    else
      var init, ip := ips[..|ips| - 1], ips[|ips| - 1];
      NewIPs(known, init) + (if ip == "" || ip in known || ip in NonEmpty(init) then [] else [ip])
  }

  /** The new addresses are exactly the non-empty ones not known before, none twice. */
  lemma {:induction false} NewIPsMeaning(known: set<string>, ips: seq<string>)
    ensures forall x :: x in NewIPs(known, ips) <==> x in NonEmpty(ips) && x !in known
    ensures forall i, j :: 0 <= i < j < |NewIPs(known, ips)| ==> NewIPs(known, ips)[i] != NewIPs(known, ips)[j]
    decreases |ips|
  {
    if ips != [] {
      var init, ip := ips[..|ips| - 1], ips[|ips| - 1];
      NewIPsMeaning(known, init);
      assert ips == init + [ip];
      NonEmptyAppend(init, ip);
    }
  }

  /** The pool after adding `ips`: existing entries untouched, each new non-empty address
      unchecked. */
  function AddedPool(pool: Pool, ips: seq<string>): (r: Pool)
    ensures r.Keys == pool.Keys + NonEmpty(ips)
  {
    map k | k in pool.Keys + NonEmpty(ips) :: if k in pool then pool[k] else Unchecked(k)
  }

  /** Adding the same addresses again finds nothing new and changes nothing. */
  lemma AddTwiceNothingNew(pool: Pool, ips: seq<string>)
    ensures NewIPs(AddedPool(pool, ips).Keys, ips) == []
    ensures AddedPool(AddedPool(pool, ips), ips) == AddedPool(pool, ips)
  {
    NewIPsMeaning(AddedPool(pool, ips).Keys, ips);
    HeadIn(NewIPs(AddedPool(pool, ips).Keys, ips));
  }

  lemma HeadIn(s: seq<string>)
    ensures s != [] ==> s[0] in s
  {
  }

  /** One pool's loop of `AddIPs`: skip empty addresses, insert the unknown ones. */
  method AddToPool(pool: Pool, ips: seq<string>) returns (p: Pool, added: seq<string>)
    ensures p == AddedPool(pool, ips)
    ensures added == NewIPs(pool.Keys, ips)
  {
    p, added := pool, [];
    for i := 0 to |ips|
      invariant p == AddedPool(pool, ips[..i])
      invariant added == NewIPs(pool.Keys, ips[..i])
    {
      var ip := ips[i];
      assert ips[..i + 1] == ips[..i] + [ip];
      assert ips[..i + 1][..i] == ips[..i];
      NonEmptyAppend(ips[..i], ip);
      if ip == "" {
        continue;
      }
      if ip !in p {
        p := p[ip := Unchecked(ip)];
        added := added + [ip];
      }
    }
    assert ips[..|ips|] == ips;
  }

  /** The pool after removing `ips`. */
  function RemovedPool(pool: Pool, ips: seq<string>): (r: Pool)
    ensures r.Keys == pool.Keys - NonEmpty(ips)
    ensures forall k :: k in r ==> r[k] == pool[k]
  {
    pool - NonEmpty(ips)
  }

  /** How many addresses of `ips` a removal deletes from a pool with `keys`: each non-empty
      key the first time it is listed. */
  function Deleted(keys: set<string>, ips: seq<string>): nat
    decreases |ips|
  {
    if ips == [] then 0
    else
      var init, ip := ips[..|ips| - 1], ips[|ips| - 1];
      Deleted(keys, init) + (if ip != "" && ip in keys && ip !in NonEmpty(init) then 1 else 0)
  }

  /** The count is the number of pool entries among the removed addresses. */
  lemma {:induction false} DeletedIsOverlap(keys: set<string>, ips: seq<string>)
    ensures Deleted(keys, ips) == |keys * NonEmpty(ips)|
    decreases |ips|
  {
    if ips != [] {
      var init, ip := ips[..|ips| - 1], ips[|ips| - 1];
      DeletedIsOverlap(keys, init);
      assert ips == init + [ip];
      NonEmptyAppend(init, ip);
      if ip != "" {
        OverlapStep(keys, NonEmpty(init), ip);
      }
    }
  }

  /** The overlap of a key set with one more removed address grows by it exactly when it is
      a key not removed before. */
  lemma OverlapStep(keys: set<string>, before: set<string>, ip: string)
    ensures ip in keys && ip !in before ==> |keys * (before + {ip})| == |keys * before| + 1
    ensures !(ip in keys && ip !in before) ==> keys * (before + {ip}) == keys * before
  {
    if ip in keys && ip !in before {
      assert keys * (before + {ip}) == (keys * before) + {ip};
      assert ip !in keys * before;
    }
  }

  /** One pool's loop of `RemoveIPs`: deletes the listed addresses that are present and
      counts them. */
  method RemoveFromPool(pool: Pool, ips: seq<string>) returns (p: Pool, removed: nat)
    ensures p == RemovedPool(pool, ips)
    ensures removed == |pool.Keys * NonEmpty(ips)|
  {
    p, removed := pool, 0;
    for i := 0 to |ips|
      invariant p == pool - NonEmpty(ips[..i])
      invariant removed == Deleted(pool.Keys, ips[..i])
    {
      var ip := ips[i];
      ListedStep(ips, i);
      DeletedStep(pool.Keys, ips, i);
      if ip == "" {
        continue;
      }
      RemoveOne(pool, NonEmpty(ips[..i]), ip, p);
      if ip in p {
        p := p - {ip};
        removed := removed + 1;
      }
    }
    assert ips[..|ips|] == ips;
    DeletedIsOverlap(pool.Keys, ips);
  }

  /** The non-empty addresses of one more element. */
  lemma ListedStep(ips: seq<string>, i: nat)
    requires i < |ips|
    ensures NonEmpty(ips[..i + 1]) == NonEmpty(ips[..i]) + (if ips[i] == "" then {} else {ips[i]})
  {
    assert ips[..i + 1] == ips[..i] + [ips[i]];
    NonEmptyAppend(ips[..i], ips[i]);
  }

  /** The count of one more element. */
  lemma DeletedStep(keys: set<string>, ips: seq<string>, i: nat)
    requires i < |ips|
    ensures Deleted(keys, ips[..i + 1]) == Deleted(keys, ips[..i])
      + (if ips[i] != "" && ips[i] in keys && ips[i] !in NonEmpty(ips[..i]) then 1 else 0)
  {
    assert ips[..i + 1][..i] == ips[..i];
  }

  /** Removing one address more: it leaves the map exactly when it is still present. */
  lemma RemoveOne<V>(pool: map<string, V>, before: set<string>, ip: string, p: map<string, V>)
    requires p == pool - before
    ensures ip in p <==> ip in pool.Keys && ip !in before
    ensures ip in p ==> p - {ip} == pool - (before + {ip})
    ensures ip !in p ==> p == pool - (before + {ip})
  {
    var r := pool - (before + {ip});
    if ip in p {
      var l := p - {ip};
      assert l.Keys == r.Keys;
      forall k | k in l ensures l[k] == r[k] {}
    } else {
      assert p.Keys == r.Keys;
      forall k | k in p ensures p[k] == r[k] {}
    }
  }

  /** Removing what was just added, when none of it was known, gives the pool back. */
  lemma AddThenRemove(pool: Pool, ips: seq<string>)
    requires pool.Keys !! NonEmpty(ips)
    ensures RemovedPool(AddedPool(pool, ips), ips) == pool
  {
    var r := RemovedPool(AddedPool(pool, ips), ips);
    assert r.Keys == pool.Keys;
    forall k | k in r ensures r[k] == pool[k] {}
  }

  /** Removing the same addresses twice deletes nothing the second time. */
  lemma RemoveTwiceNothingMore(pool: Pool, ips: seq<string>)
    ensures RemovedPool(RemovedPool(pool, ips), ips) == RemovedPool(pool, ips)
    ensures |RemovedPool(pool, ips).Keys * NonEmpty(ips)| == 0
  {
    var once := RemovedPool(pool, ips);
    assert once.Keys * NonEmpty(ips) == {};
    var twice := RemovedPool(once, ips);
    assert twice.Keys == once.Keys;
    forall k | k in twice ensures twice[k] == once[k] {}
  }

  /** The pool after marking the listed addresses that are present. */
  function Marked(pool: Pool, ips: seq<string>, reachable: bool, now: int): (r: Pool)
    ensures r.Keys == pool.Keys
  {
    map k | k in pool :: if k in ips then pool[k].(isReachable := reachable, lastChecked := Some(now)) else pool[k]
  }

  /** Marking one more address updates its entry if it is present. */
  lemma MarkedStep(pool: Pool, ips: seq<string>, ip: string, reachable: bool, now: int)
    ensures var m := Marked(pool, ips, reachable, now);
      Marked(pool, ips + [ip], reachable, now)
      == if ip in m then m[ip := m[ip].(isReachable := reachable, lastChecked := Some(now))] else m
  {
    var m := Marked(pool, ips, reachable, now);
    var m2 := Marked(pool, ips + [ip], reachable, now);
    assert forall k :: k in ips + [ip] <==> k in ips || k == ip;
    if ip in m {
      var upd := m[ip := m[ip].(isReachable := reachable, lastChecked := Some(now))];
      assert forall k :: k in m2 ==> m2[k] == upd[k];
      assert m2.Keys == upd.Keys;
    } else {
      assert forall k :: k in m2 ==> m2[k] == m[k];
    }
  }

  /** The status shapes the listing functions pick. */
  predicate IsReachable(s: IPStatus) { s.isReachable }
  predicate IsCheckedUnreachable(s: IPStatus) { !s.isReachable && s.lastChecked.Some? }

  /** A status the periodic checker probes again: never checked, or checked at least one
      interval ago. */
  predicate IsDue(s: IPStatus, now: int, interval: int) {
    s.lastChecked.None? || now - s.lastChecked.value >= interval
  }

  /** A listing loop over one pool: the addresses of the entries `keep` selects, each once, in
      the map's (unspecified) order. */
  method Collect(pool: Pool, keep: IPStatus -> bool) returns (ips: seq<string>)
    requires Keyed(pool)
    ensures forall x :: x in ips <==> x in pool && keep(pool[x])
    ensures forall i, j :: 0 <= i < j < |ips| ==> ips[i] != ips[j]
  {
    var rest := pool.Keys;
    ips := [];
    while rest != {}
      invariant rest <= pool.Keys
      invariant forall x :: x in ips <==> x in pool && x !in rest && keep(pool[x])
      invariant forall i, j :: 0 <= i < j < |ips| ==> ips[i] != ips[j]
      decreases |rest|
    {
      var k :| k in rest;
      if keep(pool[k]) {
        ips := ips + [pool[k].ip];
      }
      rest := rest - {k};
    }
  }

  class IPPoolManager {
    var publicPool: Pool
    var internalPool: Pool

    ghost predicate Valid()
      reads this
    {
      Keyed(publicPool) && Keyed(internalPool)
    }

    /** `newIPPoolManager`: two empty pools. */
    constructor ()
      ensures Valid() && publicPool == map[] && internalPool == map[]
    {
      publicPool := map[];
      internalPool := map[];
    }

    /** `AddIPs`: the new public addresses followed by the new internal ones. */
    method AddIPs(publicIPs: seq<string>, internalIPs: seq<string>) returns (newIPs: seq<string>)
      requires Valid()
      modifies this
      ensures Valid()
      ensures publicPool == AddedPool(old(publicPool), publicIPs)
      ensures internalPool == AddedPool(old(internalPool), internalIPs)
      ensures newIPs == NewIPs(old(publicPool).Keys, publicIPs) + NewIPs(old(internalPool).Keys, internalIPs)
    {
      var p, addedPublic := AddToPool(publicPool, publicIPs);
      publicPool := p;
      var q, addedInternal := AddToPool(internalPool, internalIPs);
      internalPool := q;
      newIPs := addedPublic + addedInternal;
    }

    /** `RemoveIPs`: the number of entries actually deleted from both pools. */
    method RemoveIPs(publicIPs: seq<string>, internalIPs: seq<string>) returns (removed: nat)
      requires Valid()
      modifies this
      ensures Valid()
      ensures publicPool == RemovedPool(old(publicPool), publicIPs)
      ensures internalPool == RemovedPool(old(internalPool), internalIPs)
      ensures removed == |old(publicPool).Keys * NonEmpty(publicIPs)| + |old(internalPool).Keys * NonEmpty(internalIPs)|
    {
      var p, n := RemoveFromPool(publicPool, publicIPs);
      publicPool := p;
      var q, m := RemoveFromPool(internalPool, internalIPs);
      internalPool := q;
      removed := n + m;
    }

    /** `getAllIPs`: every address of both pools. */
    method GetAllIPs() returns (ips: seq<string>)
      requires Valid()
      ensures forall x :: x in ips <==> x in publicPool || x in internalPool
    {
      var pub := Collect(publicPool, _ => true);
      var internal := Collect(internalPool, _ => true);
      ips := pub + internal;
    }

    /** `getReachableIPs`: exactly the addresses marked reachable. */
    method GetReachableIPs() returns (ips: seq<string>)
      requires Valid()
      ensures forall x :: x in ips <==>
        (x in publicPool && publicPool[x].isReachable) || (x in internalPool && internalPool[x].isReachable)
    {
      var pub := Collect(publicPool, IsReachable);
      var internal := Collect(internalPool, IsReachable);
      ips := pub + internal;
    }

    /** `getUnreachableIPs`: only the addresses that were checked and found unreachable; the
        never-checked ones are in neither list. */
    method GetUnreachableIPs() returns (ips: seq<string>)
      requires Valid()
      ensures forall x :: x in ips <==>
        (x in publicPool && IsCheckedUnreachable(publicPool[x]))
        || (x in internalPool && IsCheckedUnreachable(internalPool[x]))
    {
      var pub := Collect(publicPool, IsCheckedUnreachable);
      var internal := Collect(internalPool, IsCheckedUnreachable);
      ips := pub + internal;
    }

    /** The selection of `checkExistingIPs`: the addresses due for another probe. */
    method DueIPs(now: int, interval: int) returns (ips: seq<string>)
      requires Valid()
      ensures forall x :: x in ips <==>
        (x in publicPool && IsDue(publicPool[x], now, interval))
        || (x in internalPool && IsDue(internalPool[x], now, interval))
    {
      var pub := Collect(publicPool, s => IsDue(s, now, interval));
      var internal := Collect(internalPool, s => IsDue(s, now, interval));
      ips := pub + internal;
    }

    /** `updateIPStatus`: the reachable addresses are marked reachable, then the unreachable
        ones unreachable, both checked at `now`; addresses not in a pool are not added. */
    method UpdateIPStatus(reachableIPs: seq<string>, unreachableIPs: seq<string>, now: int)
      requires Valid()
      modifies this
      ensures Valid()
      ensures publicPool == Marked(Marked(old(publicPool), reachableIPs, true, now), unreachableIPs, false, now)
      ensures internalPool == Marked(Marked(old(internalPool), reachableIPs, true, now), unreachableIPs, false, now)
    {
      ghost var pub0, int0 := publicPool, internalPool;
      for i := 0 to |reachableIPs|
        invariant publicPool == Marked(pub0, reachableIPs[..i], true, now)
        invariant internalPool == Marked(int0, reachableIPs[..i], true, now)
      {
        var ip := reachableIPs[i];
        assert reachableIPs[..i + 1] == reachableIPs[..i] + [ip];
        MarkedStep(pub0, reachableIPs[..i], ip, true, now);
        MarkedStep(int0, reachableIPs[..i], ip, true, now);
        if ip in publicPool {
          publicPool := publicPool[ip := publicPool[ip].(isReachable := true, lastChecked := Some(now))];
        }
        if ip in internalPool {
          internalPool := internalPool[ip := internalPool[ip].(isReachable := true, lastChecked := Some(now))];
        }
      }
      assert reachableIPs[..|reachableIPs|] == reachableIPs;
      ghost var pub1, int1 := publicPool, internalPool;
      for i := 0 to |unreachableIPs|
        invariant publicPool == Marked(pub1, unreachableIPs[..i], false, now)
        invariant internalPool == Marked(int1, unreachableIPs[..i], false, now)
      {
        var ip := unreachableIPs[i];
        assert unreachableIPs[..i + 1] == unreachableIPs[..i] + [ip];
        MarkedStep(pub1, unreachableIPs[..i], ip, false, now);
        MarkedStep(int1, unreachableIPs[..i], ip, false, now);
        if ip in publicPool {
          publicPool := publicPool[ip := publicPool[ip].(isReachable := false, lastChecked := Some(now))];
        }
        if ip in internalPool {
          internalPool := internalPool[ip := internalPool[ip].(isReachable := false, lastChecked := Some(now))];
        }
      }
      assert unreachableIPs[..|unreachableIPs|] == unreachableIPs;
    }

    /** `checkIPsConnectivity`: probe each address and record the results; an empty list
        changes nothing. `probe` stands for `isIPReachable`. */
    method CheckIPsConnectivity(ips: seq<string>, probe: string -> bool, now: int)
      requires Valid()
      modifies this
      ensures Valid()
      ensures ips == [] ==> publicPool == old(publicPool) && internalPool == old(internalPool)
      ensures publicPool.Keys == old(publicPool).Keys && internalPool.Keys == old(internalPool).Keys
      ensures forall x :: x in publicPool && x in ips ==>
        publicPool[x].isReachable == probe(x) && publicPool[x].lastChecked == Some(now)
      ensures forall x :: x in publicPool && x !in ips ==> publicPool[x] == old(publicPool)[x]
      ensures forall x :: x in internalPool && x in ips ==>
        internalPool[x].isReachable == probe(x) && internalPool[x].lastChecked == Some(now)
      ensures forall x :: x in internalPool && x !in ips ==> internalPool[x] == old(internalPool)[x]
    {
      if |ips| == 0 {
        return;
      }
      var reachable, unreachable := [], [];
      for i := 0 to |ips|
        invariant forall x :: x in reachable <==> x in ips[..i] && probe(x)
        invariant forall x :: x in unreachable <==> x in ips[..i] && !probe(x)
      {
        assert ips[..i + 1] == ips[..i] + [ips[i]];
        if probe(ips[i]) {
          reachable := reachable + [ips[i]];
        } else {
          unreachable := unreachable + [ips[i]];
        }
      }
      assert ips[..|ips|] == ips;
      UpdateIPStatus(reachable, unreachable, now);
    }
  }

  /** A status update touches only addresses already in the pool, and keeps every other
      entry as it was. */
  lemma UpdateChangesOnlyPresent(pool: Pool, reachableIPs: seq<string>, unreachableIPs: seq<string>, now: int)
    ensures var r := Marked(Marked(pool, reachableIPs, true, now), unreachableIPs, false, now);
      r.Keys == pool.Keys
      && (forall k :: k in pool && k !in reachableIPs && k !in unreachableIPs ==> r[k] == pool[k])
      && (forall k :: k in pool && k in unreachableIPs ==> !r[k].isReachable && r[k].lastChecked == Some(now))
      && (forall k :: k in pool && k in reachableIPs && k !in unreachableIPs ==> r[k].isReachable)
  {
  }
}
