/** Bounded deduplication: which keys are turned away, whatever the implementation. */
module Dedup {
  import opened Collections

  function Bound(capacity: nat): (n: nat)
    ensures n >= 1 && n >= capacity && (n == capacity || n == 1)
  {
    if capacity < 1 then 1 else capacity
  }

  /** The keys let in, in order, when `keys` are observed one after the other: only those not among the last `n` let in. */
  function Accepted(keys: seq<string>, n: nat): seq<string> {
    if keys == [] then []
    else
      var before, key := Accepted(keys[..|keys| - 1], n), keys[|keys| - 1];
      if key in LastOf(before, n) then before else before + [key]
  }

  /** Any two equal keys let in are more than n places apart. */
  lemma {:induction false} EqualKeysAreFarApart(keys: seq<string>, n: nat, i: nat, j: nat)
    requires i < j < |Accepted(keys, n)| && j - i <= n
    ensures Accepted(keys, n)[i] != Accepted(keys, n)[j]
    decreases |keys|
  {
    var front, key := keys[..|keys| - 1], keys[|keys| - 1];
    var before := Accepted(front, n);
    if j < |before| {
      EqualKeysAreFarApart(front, n, i, j);
    } else {
      var recent := LastOf(before, n);
      assert before[i] == recent[i - (|before| - |recent|)];
    }
  }

  /** With room for all of them, exactly the first occurrences are let in. */
  lemma {:induction false} RoomForAll(keys: seq<string>, n: nat)
    requires |keys| <= n
    ensures Distinct(Accepted(keys, n)) && |Accepted(keys, n)| <= |keys|
    ensures forall key :: key in Accepted(keys, n) <==> key in keys
    decreases |keys|
  {
    hide LastOf, Distinct;
    if keys == [] {
      NoneRepeats();
    } else {
      var front, key := keys[..|keys| - 1], keys[|keys| - 1];
      RoomForAll(front, n);
      assert keys == front + [key];
      LastOfShort(Accepted(front, n), n);
      if key !in Accepted(front, n) {
        OneMoreIsDistinct(Accepted(front, n), key);
      }
    }
  }

  lemma NoneRepeats()
    ensures Distinct<string>([])
  {
  }

  lemma OneMoreIsDistinct(order: seq<string>, key: string)
    requires Distinct(order) && key !in order
    ensures Distinct(order + [key])
  {
  }

  // ----- the two implementations -----

  /** A new key joins at the end. */
  lemma KeyJoins(seen: set<string>, order: seq<string>, key: string)
    requires Distinct(order) && key !in seen && forall k :: k in seen <==> k in order
    ensures Distinct(order + [key]) && forall k :: k in seen + {key} <==> k in order + [key]
  {
    OneMoreIsDistinct(order, key);
  }

  /** The oldest key goes from the front. */
  lemma KeyLeaves(seen: set<string>, order: seq<string>)
    requires order != [] && Distinct(order) && forall k :: k in seen <==> k in order
    ensures Distinct(order[1..]) && forall k :: k in seen - {order[0]} <==> k in order[1..]
  {
    assert order == [order[0]] + order[1..];
  }

  ghost predicate Remembers(seen: set<string>, order: seq<string>, capacity: nat, accepted: seq<string>) {
    && capacity >= 1
    && order == LastOf(accepted, capacity)
    && Distinct(order)
    && (forall key :: key in seen <==> key in order)
  }

  class EventDedup {
    var seen: set<string>
    var order: seq<string>
    const capacity: nat
    /** Every key let in so far. */
    ghost var accepted: seq<string>

    constructor (capacity: nat)
      ensures Valid() && accepted == [] && this.capacity == Bound(capacity)
    {
      hide LastOf;
      seen, order := {}, [];
      this.capacity := Bound(capacity);
      accepted := [];
      new;
      LastOfShort(accepted, this.capacity);
    }

    ghost predicate Valid()
      reads this
    {
      Remembers(seen, order, capacity, accepted)
    }

    /** True exactly for a key that is not among the last `capacity` let in. */
    method Observe(key: string) returns (first: bool)
      requires Valid()
      modifies this
      ensures Valid()
      ensures first <==> key !in LastOf(old(accepted), capacity)
      ensures accepted == if first then old(accepted) + [key] else old(accepted)
    {
      hide LastOf, Distinct;
      if key in seen {
        return false;
      }
      LastOfOneMore(accepted, key, capacity);
      KeyJoins(seen, order, key);
      seen := seen + {key};
      order := order + [key];
      accepted := accepted + [key];
      while |order| > capacity
        invariant capacity >= 1 && |order| <= capacity + 1 && Distinct(order)
        invariant forall k :: k in seen <==> k in order
        invariant accepted == old(accepted) + [key]
        invariant LastOf(accepted, capacity) == if |order| > capacity then order[1..] else order
        decreases |order|
      {
        var oldest := order[0];
        KeyLeaves(seen, order);
        order := order[1..];
        seen := seen - {oldest};
      }
      return true;
    }
  }

  class BoundedSeen {
    var order: seq<string>
    var keys: set<string>
    const capacity: nat
    ghost var accepted: seq<string>

    constructor (capacity: nat)
      ensures Valid() && accepted == [] && this.capacity == Bound(capacity)
    {
      hide LastOf;
      order, keys := [], {};
      this.capacity := Bound(capacity);
      accepted := [];
      new;
      LastOfShort(accepted, this.capacity);
    }

    ghost predicate Valid()
      reads this
    {
      Remembers(keys, order, capacity, accepted)
    }

    method Insert(key: string) returns (inserted: bool)
      requires Valid()
      modifies this
      ensures Valid()
      ensures inserted <==> key !in LastOf(old(accepted), capacity)
      ensures accepted == if inserted then old(accepted) + [key] else old(accepted)
    {
      hide LastOf, Distinct;
      if key in keys {
        return false;
      }
      LastOfOneMore(accepted, key, capacity);
      KeyJoins(keys, order, key);
      keys := keys + {key};
      order := order + [key];
      accepted := accepted + [key];
      while |order| > capacity
        invariant |order| <= capacity + 1 && Distinct(order) && accepted == old(accepted) + [key]
        invariant forall k :: k in keys <==> k in order
        invariant LastOf(accepted, capacity) == if |order| > capacity then order[1..] else order
        decreases |order|
      {
        var oldest := order[0];
        KeyLeaves(keys, order);
        order := order[1..];
        keys := keys - {oldest};
      }
      return true;
    }
  }

  /** Driven with the same keys, both let in exactly what the specification lets in. */
  method ObserveAll(dedup: EventDedup, seen: BoundedSeen, keys: seq<string>)
    requires dedup.Valid() && seen.Valid() && dedup.accepted == [] && seen.accepted == [] && dedup.capacity == seen.capacity
    modifies dedup, seen
    ensures dedup.Valid() && seen.Valid()
    ensures dedup.accepted == Accepted(keys, dedup.capacity) && seen.accepted == dedup.accepted
  {
    hide LastOf, Remembers;
    for i := 0 to |keys|
      invariant dedup.Valid() && seen.Valid()
      invariant dedup.accepted == seen.accepted == Accepted(keys[..i], dedup.capacity)
    {
      assert keys[..i + 1][..i] == keys[..i];
      var a := dedup.Observe(keys[i]);
      var b := seen.Insert(keys[i]);
      assert a == b;
    }
    assert keys[..|keys|] == keys;
  }
}
