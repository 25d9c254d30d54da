/** Shared counters reached through pointers: one counter per cell, one unit per holder, and an
    id table that may be relinked while units are held. */
module Counters {
  import opened Policy

  /** Lease id to the cell it holds a unit of, if any. */
  type Holders = map<nat, Option<nat>>

  ghost function On(h: Holders, c: nat): set<nat> { set l | l in h && h[l] == Some(c) }

  /** Every cell counts exactly the leases that hold it, and no lease holds a missing cell. */
  ghost predicate Counts(active: seq<int>, h: Holders) {
    && (forall l :: l in h && h[l].Some? ==> h[l].value < |active|)
    && (forall c :: 0 <= c < |active| ==> active[c] == |On(h, c)|)
  }

  function Plus(active: seq<int>, c: Option<nat>, d: int): seq<int>
    requires c.Some? ==> c.value < |active|
  {
    if c.None? then active else active[c.value := active[c.value] + d]
  }

  lemma Take(active: seq<int>, h: Holders, id: nat, c: Option<nat>)
    requires Counts(active, h) && id !in h && (c.Some? ==> c.value < |active|)
    ensures Counts(Plus(active, c, 1), h[id := c])
  {
    var h' := h[id := c];
    forall k: nat
      ensures On(h', k) == if c == Some(k) then On(h, k) + {id} else On(h, k)
    {
    }
  }

  lemma GiveBack(active: seq<int>, h: Holders, id: nat)
    requires Counts(active, h) && id in h
    ensures Counts(Plus(active, h[id], -1), h - {id})
  {
    var h' := h - {id};
    forall k: nat
      ensures On(h', k) == if h[id] == Some(k) then On(h, k) - {id} else On(h, k)
    {
    }
    if h[id].Some? {
      assert id in On(h, h[id].value);
    }
  }

  lemma Grow(active: seq<int>, h: Holders, more: seq<int>)
    requires Counts(active, h) && forall k :: 0 <= k < |more| ==> more[k] == 0
    ensures Counts(active + more, h)
  {
    forall c: nat | |active| <= c < |active| + |more|
      ensures On(h, c) == {}
    {
    }
  }

  // ----- ids -----

  ghost predicate Injective(known: map<string, nat>) {
    forall a, b :: a in known && b in known && known[a] == known[b] ==> a == b
  }

  /** Each held unit is reachable by the id under which it was taken. */
  ghost predicate Reachable(known: map<string, nat>, names: map<nat, string>, h: Holders, size: nat) {
    && Injective(known)
    && (forall id :: id in known ==> known[id] < size)
    && (forall l :: l in h && h[l].Some? ==> l in names && names[l] in known && known[names[l]] == h[l].value)
  }

  ghost function Under(names: map<nat, string>, h: Holders, id: string): set<nat> {
    set l | l in h && h[l].Some? && l in names && names[l] == id
  }

  /** The counter looked up by id is the number of leases taken under that id; an id that is
      not in the table has none. */
  lemma CountById(active: seq<int>, known: map<string, nat>, names: map<nat, string>, h: Holders, id: string)
    requires Counts(active, h) && Reachable(known, names, h, |active|)
    ensures |Under(names, h, id)| == if id in known then active[known[id]] else 0
  {
    if id in known {
      assert Under(names, h, id) == On(h, known[id]);
    } else {
      assert Under(names, h, id) == {};
    }
  }

  /** A known id keeps its counter, a new id gets the brought cell, and an id that is no longer
      wanted survives only while its counter is in use. */
  ghost function Relinked(known: map<string, nat>, brought: map<string, nat>, busy: set<string>): map<string, nat> {
    map id | id in known.Keys + brought.Keys && (id in brought || id in busy) :: if id in known then known[id] else brought[id]
  }

  ghost function Busy(active: seq<int>, known: map<string, nat>): set<string>
    requires forall id :: id in known ==> known[id] < |active|
  {
    set id | id in known && active[known[id]] != 0
  }

  /** Relinking loses no held unit and never gives two ids one counter. */
  lemma RelinkKeeps(active: seq<int>, known: map<string, nat>, brought: map<string, nat>, names: map<nat, string>, h: Holders, size: nat)
    requires Counts(active, h) && Reachable(known, names, h, |active|)
    requires Injective(brought) && forall id :: id in brought ==> |active| <= brought[id] < size
    requires |active| <= size
    ensures Reachable(Relinked(known, brought, Busy(active, known)), names, h, size)
  {
    var next := Relinked(known, brought, Busy(active, known));
    forall l | l in h && h[l].Some?
      ensures l in names && names[l] in next && next[names[l]] == h[l].value
    {
      assert l in On(h, h[l].value);
      assert names[l] in Busy(active, known);
    }
  }
}
