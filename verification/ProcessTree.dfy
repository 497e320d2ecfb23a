/** Ancestry of the processes of one cgroup: tools/python/ci_devex_cgroup.py, lines 152-171, 228-232 and 268-281. */
module ProcessTree {
  type Pid = nat

  datatype Fact = Fact(started: string, parent: Pid, uid: int)

  type Facts = map<Pid, Fact>

  /** A process of another user, or one whose pid the registry knows under another creation. */
  predicate Foreign(current: Facts, registered: Facts, uid: int, pid: Pid)
    requires pid in current
  {
    current[pid].uid != uid
    || (pid in registered && (registered[pid].started != current[pid].started || registered[pid].uid != uid))
  }

  /** The registered process had another creation time, or belonged to another user. */
  predicate Reused(now: Fact, known: Fact, uid: int) {
    now.started != known.started || known.uid != uid
  }

  predicate AllOwn(current: Facts, registered: Facts, uid: int) {
    forall pid :: pid in current ==> !Foreign(current, registered, uid, pid)
  }

  /** `n` live parent links lead from the process to one that was registered. */
  predicate DescendsIn(current: Facts, registered: Facts, pid: Pid, n: nat)
    decreases n
  {
    && pid in current
    && if n == 0 then pid in registered else DescendsIn(current, registered, current[pid].parent, n - 1)
  }

  ghost predicate Descends(current: Facts, registered: Facts, pid: Pid) {
    exists n: nat :: DescendsIn(current, registered, pid, n)
  }

  /** The registry in which exactly these live processes carry their current facts. */
  ghost function Adopted(current: Facts, registered: Facts, live: set<Pid>): Facts
    requires live <= current.Keys
  {
    map pid | pid in registered.Keys + live :: if pid in live then current[pid] else registered[pid]
  }

  ghost function Descendants(current: Facts, registered: Facts): set<Pid> {
    set pid | pid in current && Descends(current, registered, pid)
  }

  ghost predicate Orders(order: seq<Pid>, current: Facts) {
    && (forall pid :: pid in order <==> pid in current)
    && (forall i, j :: 0 <= i < j < |order| ==> order[i] != order[j])
  }

  lemma ParentDescends(current: Facts, registered: Facts, pid: Pid)
    requires pid in current && Descends(current, registered, current[pid].parent)
    ensures Descends(current, registered, pid)
  {
    var n: nat :| DescendsIn(current, registered, current[pid].parent, n);
    assert DescendsIn(current, registered, pid, n + 1);
  }

  lemma RegisteredDescends(current: Facts, registered: Facts, pid: Pid)
    requires pid in current && pid in registered
    ensures Descends(current, registered, pid)
  {
    assert DescendsIn(current, registered, pid, 0);
  }

  /**
   * A set of live processes that holds the registered ones and is closed under live parent links holds all
   * descendants.
   */
  lemma {:induction false} ClosedHoldsDescendants(current: Facts, registered: Facts, live: set<Pid>, pid: Pid, n: nat)
    requires forall p :: p in current && p in registered ==> p in live
    requires forall p :: p in current && current[p].parent in live ==> p in live
    requires DescendsIn(current, registered, pid, n)
    ensures pid in live
    decreases n
  {
    if n > 0 {
      ClosedHoldsDescendants(current, registered, live, current[pid].parent, n - 1);
    }
  }

  /** What one more process may be registered for: it is known, or its live parent is registered. */
  ghost predicate Ready(current: Facts, entries: Facts, uid: int, pid: Pid)
    requires pid in current
  {
    var parent := current[pid].parent;
    pid in entries ||
    (parent in entries && parent in current && current[parent].started == entries[parent].started
     && current[parent].uid == entries[parent].uid == uid)
  }

  predicate LinkedTo(current: Facts, registered: Facts, live: set<Pid>, pid: Pid)
    requires pid in current
  {
    var parent := current[pid].parent;
    parent in current && (parent in registered || parent in live)
  }

  lemma ReadyIff(current: Facts, registered: Facts, uid: int, live: set<Pid>, pid: Pid)
    requires AllOwn(current, registered, uid) && live <= current.Keys && pid in current
    ensures Ready(current, Adopted(current, registered, live), uid, pid) <==>
      pid in registered || pid in live || LinkedTo(current, registered, live, pid)
  {
    var parent := current[pid].parent;
    if parent in current {
      assert !Foreign(current, registered, uid, parent);
    }
  }

  lemma AdoptOne(current: Facts, registered: Facts, live: set<Pid>, pid: Pid)
    requires live <= current.Keys && pid in current
    ensures Adopted(current, registered, live)[pid := current[pid]] == Adopted(current, registered, live + {pid})
  {
  }

  class Registry {
    var entries: Facts

    constructor (entries: Facts)
      ensures this.entries == entries
    {
      this.entries := entries;
    }

    /** `register_children`; `order` is the order of the dictionary. */
    method RegisterChildren(current: Facts, order: seq<Pid>, uid: int) returns (ok: bool)
      requires Orders(order, current)
      modifies this
      ensures ok <==> AllOwn(current, old(entries), uid)
      ensures !ok <==> exists pid ::
        && pid in current
        && (current[pid].uid != uid || (pid in old(entries) && Reused(current[pid], old(entries)[pid], uid)))
      ensures !ok ==> entries == old(entries)
      ensures ok ==> entries == Adopted(current, old(entries), Descendants(current, old(entries)))
    {
      for k := 0 to |order|
        invariant entries == old(entries)
        invariant forall i :: 0 <= i < k ==> !Foreign(current, entries, uid, order[i])
      {
        if Foreign(current, entries, uid, order[k]) {
          return false;
        }
      }
      var pending := order;
      ghost var live: set<Pid> := {};
      assert entries == Adopted(current, old(entries), live);
      while pending != []
        invariant AllOwn(current, old(entries), uid)
        invariant live <= Descendants(current, old(entries)) && entries == Adopted(current, old(entries), live)
        invariant forall pid :: pid in current <==> pid in live || pid in pending
        decreases |pending|
      {
        ghost var before := live;
        var rest;
        rest, live := Pass(current, pending, uid, old(entries), live);
        if |rest| == |pending| {
          AllFound(current, old(entries), live, pending);
          return true;
        }
        pending := rest;
      }
      assert live == Descendants(current, old(entries));
      ok := true;
    }

    /** One round over the pending processes. */
    method Pass(current: Facts, pending: seq<Pid>, uid: int, ghost registered: Facts, ghost live: set<Pid>)
      returns (rest: seq<Pid>, ghost now: set<Pid>)
      requires AllOwn(current, registered, uid) && live <= Descendants(current, registered)
      requires entries == Adopted(current, registered, live)
      requires forall pid :: pid in current <==> pid in live || pid in pending
      modifies this
      ensures live <= now <= Descendants(current, registered) && entries == Adopted(current, registered, now)
      ensures |rest| <= |pending|
      ensures forall pid :: pid in current <==> pid in now || pid in rest
      ensures |rest| == |pending| ==> rest == pending && now == live && NoneReady(current, registered, live, pending)
    {
      rest, now := [], live;
      for k := 0 to |pending|
        invariant live <= now <= Descendants(current, registered) && entries == Adopted(current, registered, now)
        invariant |rest| <= k
        invariant forall pid :: pid in rest ==> pid in current
        invariant forall pid :: pid in current <==> pid in now || pid in rest || pid in pending[k..]
        invariant |rest| == k ==> rest == pending[..k] && now == live && NoneReady(current, registered, live, rest)
      {
        var pid := pending[k];
        assert pending[k..] == [pid] + pending[k + 1..] && pending[..k + 1] == pending[..k] + [pid];
        var parent := current[pid].parent;
        ReadyIff(current, registered, uid, now, pid);
        if pid in entries || (parent in entries && parent in current && current[parent].started == entries[parent].started
                              && current[parent].uid == entries[parent].uid == uid) {
          AdoptOne(current, registered, now, pid);
          ReadyDescends(current, registered, now, pid);
          entries := entries[pid := current[pid]];
          now := now + {pid};
        } else {
          rest := rest + [pid];
        }
      }
    }

    /** The part of `cleanup` between the freeze and the kill: register, verify, and only then kill what is left. */
    method MayKill(current: Facts, order: seq<Pid>, uid: int) returns (accepted: bool)
      requires Orders(order, current)
      modifies this
      ensures accepted <==> AllOwn(current, old(entries), uid) && forall pid :: pid in current ==>
        Descends(current, old(entries), pid)
    {
      ghost var was := entries;
      accepted := RegisterChildren(current, order, uid);
      if !accepted {
        return;
      }
      for k := 0 to |order|
        invariant entries == Adopted(current, old(entries), Descendants(current, old(entries)))
        invariant forall i :: 0 <= i < k ==> Descends(current, old(entries), order[i])
      {
        var pid := order[k];
        assert !Foreign(current, old(entries), uid, pid);
        if pid !in entries || current[pid].uid != uid || current[pid].started != entries[pid].started {
          assert Descends(current, was, pid) ==> pid in Descendants(current, was);
          return false;
        }
        if pid in old(entries) {
          RegisteredDescends(current, old(entries), pid);
        }
      }
    }
  }

  ghost predicate NoneReady(current: Facts, registered: Facts, live: set<Pid>, pending: seq<Pid>) {
    forall pid :: pid in pending ==>
      && pid in current && pid !in registered
      && !LinkedTo(current, registered, live, pid)
  }

  lemma ReadyDescends(current: Facts, registered: Facts, live: set<Pid>, pid: Pid)
    requires pid in current && live <= Descendants(current, registered)
    requires pid in registered || pid in live || LinkedTo(current, registered, live, pid)
    ensures pid in Descendants(current, registered)
  {
    if pid in registered {
      RegisteredDescends(current, registered, pid);
    } else if pid !in live {
      if current[pid].parent in registered {
        RegisteredDescends(current, registered, current[pid].parent);
      }
      ParentDescends(current, registered, pid);
    }
  }

  /** A round that registers nobody leaves no descendant out. */
  lemma AllFound(current: Facts, registered: Facts, live: set<Pid>, pending: seq<Pid>)
    requires live <= Descendants(current, registered) && NoneReady(current, registered, live, pending)
    requires forall pid :: pid in current <==> pid in live || pid in pending
    ensures live == Descendants(current, registered)
  {
    forall pid | pid in Descendants(current, registered)
      ensures pid in live
    {
      var n: nat :| DescendsIn(current, registered, pid, n);
      ClosedHoldsDescendants(current, registered, live, pid, n);
    }
  }

  /** After registration a live process is registered exactly when it descends from one registered before. */
  lemma RegisteredExactly(current: Facts, registered: Facts, pid: Pid)
    ensures var after := Adopted(current, registered, Descendants(current, registered));
            && (pid in current ==>
                 (pid in after <==> Descends(current, registered, pid)) && (pid in after ==> after[pid] == current[pid]))
            && (pid !in current ==>
                 (pid in after <==> pid in registered) && (pid in after ==> after[pid] == registered[pid]))
  {
    if pid in current && pid in registered {
      RegisteredDescends(current, registered, pid);
    }
  }

  /** Registering again the same processes changes nothing. */
  lemma RegisteredAgain(current: Facts, registered: Facts)
    ensures var after := Adopted(current, registered, Descendants(current, registered));
            Adopted(current, after, Descendants(current, after)) == after
  {
    var live := Descendants(current, registered);
    var after := Adopted(current, registered, live);
    assert forall p :: p in current && p in after ==> p in live by {
      forall p | p in current && p in after
        ensures p in live
      {
        RegisteredExactly(current, registered, p);
      }
    }
    forall pid | pid in Descendants(current, after)
      ensures pid in live
    {
      var n: nat :| DescendsIn(current, after, pid, n);
      forall p | p in current && current[p].parent in live
        ensures p in live
      {
        ParentDescends(current, registered, p);
      }
      ClosedHoldsDescendants(current, after, live, pid, n);
    }
    forall pid | pid in live
      ensures pid in Descendants(current, after)
    {
      RegisteredDescends(current, after, pid);
    }
    assert Descendants(current, after) == live;
  }
}
