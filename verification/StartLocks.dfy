/**
 * The per-id locks that serialize session starts (api/src/api/registry.py): an entry per id with
 * its lock object and a count of those holding it or waiting, dropped when the count falls to zero.
 */
module StartLocks {
  import opened Prelude

  datatype Entry = Entry(lock: nat, holders: nat)

  /** One handler inside `start_lock(id)`: the lock object it took from the table, and whether it has it. */
  datatype Claim = Claim(id: nat, lock: nat, held: bool)

  /** `owner` has a place for every lock object ever made, `entries` is the table, `claims` is by handler. */
  datatype Locks = Locks(owner: seq<Option<nat>>, entries: map<nat, Entry>, claims: map<nat, Claim>)

  const UNLOCKED := Locks([], map[], map[])

  // ---- What each step does -------------------------------------------------

  /** Up to the wait for the lock: the id's entry, or a new lock object under it, counts one more. */
  function Enter(l: Locks, h: nat, id: nat): Locks {
    var entry := if id in l.entries then l.entries[id] else Entry(|l.owner|, 0);
    Locks(if id in l.entries then l.owner else l.owner + [None],
          l.entries[id := Entry(entry.lock, entry.holders + 1)],
          l.claims[h := Claim(id, entry.lock, false)])
  }

  predicate CanAcquire(l: Locks, h: nat) {
    h in l.claims && !l.claims[h].held && l.claims[h].lock < |l.owner| && l.owner[l.claims[h].lock].None?
  }

  function Acquire(l: Locks, h: nat): Locks
    requires CanAcquire(l, h)
  {
    var c := l.claims[h];
    l.(owner := l.owner[c.lock := Some(h)], claims := l.claims[h := c.(held := true)])
  }

  predicate CanExit(l: Locks, h: nat) {
    && h in l.claims && l.claims[h].lock < |l.owner|
    && l.claims[h].id in l.entries && l.entries[l.claims[h].id].holders > 0
  }

  /** Leaving, with the lock or given up waiting for it; the entry goes with its last claimant. */
  function Exit(l: Locks, h: nat): Locks
    requires CanExit(l, h)
  {
    var c := l.claims[h];
    var entry := l.entries[c.id];
    Locks(if c.held then l.owner[c.lock := None] else l.owner,
          if entry.holders == 1 then l.entries - {c.id} else l.entries[c.id := Entry(entry.lock, entry.holders - 1)],
          l.claims - {h})
  }

  // ---- What every reachable table satisfies --------------------------------

  ghost function Claimants(claims: map<nat, Claim>, id: nat): set<nat> {
    set h | h in claims && claims[h].id == id
  }

  ghost predicate ClaimOk(l: Locks, h: nat)
    requires h in l.claims
  {
    var c := l.claims[h];
    && c.lock < |l.owner| && c.id in l.entries && l.entries[c.id].lock == c.lock
    && (c.held <==> l.owner[c.lock] == Some(h))
  }

  ghost predicate LockOk(l: Locks, k: nat)
    requires k < |l.owner|
  {
    l.owner[k].Some? ==> l.owner[k].value in l.claims && l.claims[l.owner[k].value].lock == k
  }

  ghost predicate EntryOk(l: Locks, id: nat)
    requires id in l.entries
  {
    l.entries[id].lock < |l.owner| && l.entries[id].holders == |Claimants(l.claims, id)| && l.entries[id].holders > 0
  }

  /** Each id's lock object is its own. */
  ghost predicate LocksApart(l: Locks) {
    forall a, b :: a in l.entries && b in l.entries && a != b ==> l.entries[a].lock != l.entries[b].lock
  }

  ghost predicate Inv(l: Locks) {
    && (forall h :: h in l.claims ==> ClaimOk(l, h))
    && (forall k :: 0 <= k < |l.owner| ==> LockOk(l, k))
    && (forall id :: id in l.entries ==> EntryOk(l, id))
    && LocksApart(l)
  }

  // ---- Each step keeps it --------------------------------------------------

  lemma ClaimAdds(claims: map<nat, Claim>, h: nat, c: Claim, id: nat)
    requires h !in claims
    ensures |Claimants(claims[h := c], id)| == |Claimants(claims, id)| + (if id == c.id then 1 else 0)
  {
    if id == c.id {
      assert Claimants(claims[h := c], id) == Claimants(claims, id) + {h};
    } else {
      assert Claimants(claims[h := c], id) == Claimants(claims, id);
    }
  }

  /** Nobody wants an id without an entry. */
  lemma NoClaimants(l: Locks, id: nat)
    requires Inv(l) && id !in l.entries
    ensures Claimants(l.claims, id) == {}
  {
    forall g | g in l.claims ensures l.claims[g].id in l.entries { assert ClaimOk(l, g); }
  }

  /** The entry of an id once handler h has come in for `id`. */
  lemma EnterEntry(l: Locks, h: nat, id: nat, other: nat)
    requires Inv(l) && h !in l.claims && other in Enter(l, h, id).entries
    ensures EntryOk(Enter(l, h, id), other)
  {
    ClaimAdds(l.claims, h, Enter(l, h, id).claims[h], other);
    if other in l.entries { assert EntryOk(l, other); } else { NoClaimants(l, other); }
  }

  lemma EnterApart(l: Locks, h: nat, id: nat)
    requires Inv(l)
    ensures LocksApart(Enter(l, h, id))
  {
    var t := Enter(l, h, id);
    forall a, b | a in t.entries && b in t.entries && a != b ensures t.entries[a].lock != t.entries[b].lock {
      assert a in l.entries ==> EntryOk(l, a);
      assert b in l.entries ==> EntryOk(l, b);
    }
  }

  lemma EnterKeeps(l: Locks, h: nat, id: nat)
    requires Inv(l) && h !in l.claims
    ensures Inv(Enter(l, h, id))
  {
    var t := Enter(l, h, id);
    forall other | other in t.entries ensures EntryOk(t, other) { EnterEntry(l, h, id, other); }
    EnterApart(l, h, id);
    forall k | 0 <= k < |t.owner| ensures LockOk(t, k) {
      if k < |l.owner| { assert LockOk(l, k); }
    }
    forall g | g in t.claims ensures ClaimOk(t, g) {
      if g != h {
        assert ClaimOk(l, g);
      } else {
        assert id in l.entries ==> EntryOk(l, id) && LockOk(l, l.entries[id].lock);
      }
    }
  }

  lemma AcquireKeeps(l: Locks, h: nat)
    requires Inv(l) && CanAcquire(l, h)
    ensures Inv(Acquire(l, h))
  {
    var t := Acquire(l, h);
    forall id | id in t.entries ensures EntryOk(t, id) {
      assert EntryOk(l, id) && Claimants(t.claims, id) == Claimants(l.claims, id);
    }
    forall g | g in t.claims ensures ClaimOk(t, g) { assert ClaimOk(l, g); }
    forall k | 0 <= k < |t.owner| ensures LockOk(t, k) { assert LockOk(l, k); }
  }

  lemma ClaimantCanExit(l: Locks, h: nat)
    requires Inv(l) && h in l.claims
    ensures CanExit(l, h)
  {
    assert ClaimOk(l, h);
  }

  /** The entry of an id once claimant h has left. */
  lemma ExitEntry(l: Locks, h: nat, id: nat)
    requires Inv(l) && h in l.claims && CanExit(l, h) && id in Exit(l, h).entries
    ensures EntryOk(Exit(l, h), id)
  {
    var t, c := Exit(l, h), l.claims[h];
    assert EntryOk(l, id);
    if id == c.id {
      assert Claimants(t.claims, id) == Claimants(l.claims, id) - {h} && h in Claimants(l.claims, id);
    } else {
      assert Claimants(t.claims, id) == Claimants(l.claims, id);
    }
  }

  /** Whoever else wants an id still finds its entry. */
  lemma EntryStays(l: Locks, h: nat, g: nat)
    requires Inv(l) && h in l.claims && CanExit(l, h) && g in l.claims && g != h
    ensures l.claims[g].id in Exit(l, h).entries
  {
    assert ClaimOk(l, g);
    if l.claims[g].id == l.claims[h].id {
      assert EntryOk(l, l.claims[h].id);
      TwoElements(Claimants(l.claims, l.claims[h].id), h, g);
    }
  }

  lemma ExitKeeps(l: Locks, h: nat)
    requires Inv(l) && h in l.claims
    ensures CanExit(l, h) && Inv(Exit(l, h))
  {
    ClaimantCanExit(l, h);
    var t := Exit(l, h);
    forall id | id in t.entries ensures EntryOk(t, id) { ExitEntry(l, h, id); }
    forall g | g in t.claims ensures ClaimOk(t, g) {
      EntryStays(l, h, g);
      assert ClaimOk(l, g) && ClaimOk(l, h);
    }
    forall k | 0 <= k < |t.owner| ensures LockOk(t, k) { assert LockOk(l, k) && ClaimOk(l, h); }
  }

  lemma TwoElements(s: set<nat>, a: nat, b: nat)
    requires a in s && b in s && a != b
    ensures |s| >= 2
  {
    assert s == (s - {a, b}) + {a, b};
  }

  // ---- What it gives -------------------------------------------------------

  /** Two handlers inside the lock of one id are the same handler. */
  lemma MutualExclusion(l: Locks, a: nat, b: nat)
    requires Inv(l) && a in l.claims && b in l.claims && l.claims[a].held && l.claims[b].held
    requires l.claims[a].id == l.claims[b].id
    ensures a == b
  {
    assert ClaimOk(l, a) && ClaimOk(l, b);
  }

  /** The table holds an entry for an id exactly while some handler holds or waits for its lock. */
  lemma EntryIffClaimed(l: Locks, id: nat)
    requires Inv(l)
    ensures id in l.entries <==> exists h :: h in l.claims && l.claims[h].id == id
  {
    if id in l.entries {
      assert EntryOk(l, id);
      var h :| h in Claimants(l.claims, id);
      assert h in l.claims && l.claims[h].id == id;
    }
    forall h | h in l.claims && l.claims[h].id == id ensures id in l.entries { assert ClaimOk(l, h); }
  }

  /** Everyone who wants an id waits on one lock object, so a waiter gets it exactly when it is free. */
  lemma WaitersShareLock(l: Locks, a: nat, b: nat)
    requires Inv(l) && a in l.claims && b in l.claims && l.claims[a].id == l.claims[b].id
    ensures l.claims[a].lock == l.claims[b].lock < |l.owner|
    ensures !l.claims[a].held ==> (CanAcquire(l, a) <==> l.owner[l.claims[b].lock].None?)
  {
    assert ClaimOk(l, a) && ClaimOk(l, b);
  }
}
