/** The experience buffer of `src/replay-memory.ts`: a FIFO of transitions that keeps the
    most recent `capacity` ones, and a sampler that draws without replacement. */
module ReplayMemory {
  import opened Core
  import Rng

  /** JavaScript's one-argument `slice(start)`: a negative start counts from the end, and
      a start beyond either end is brought back to it. */
  function Slice<T>(xs: seq<T>, start: int): seq<T>
  {
    if start >= 0 then
      xs[if start <= |xs| then start else |xs|..]
    else
      xs[if |xs| + start >= 0 then |xs| + start else 0..]
  }

  /** The last `c` elements of `xs`, or all of them when there are fewer. */
  function Last<T>(xs: seq<T>, c: nat): (r: seq<T>)
    ensures |r| == if |xs| <= c then |xs| else c
    ensures forall k :: 0 <= k < |r| ==> r[k] == xs[|xs| - |r| + k]
  {
    if |xs| <= c then xs else xs[|xs| - c..]
  }

  /** The buffer after storing `t`: `[...buffer, t].slice(-capacity)`. */
  function Stored(buffer: seq<Transition>, t: Transition, capacity: int): seq<Transition>
  {
    Slice(buffer + [t], -capacity)
  }

  /** With a positive capacity, storing appends the new transition and then keeps only
      the last `capacity` ones, so the size becomes min(size + 1, capacity). */
  lemma StoredKeepsLast(buffer: seq<Transition>, t: Transition, capacity: int)
    requires capacity >= 1
    ensures Stored(buffer, t, capacity) == Last(buffer + [t], capacity)
    ensures |Stored(buffer, t, capacity)| == if |buffer| + 1 <= capacity then |buffer| + 1 else capacity
    ensures Stored(buffer, t, capacity)[|Stored(buffer, t, capacity)| - 1] == t
  {
  }

  /** With capacity 0, `slice(-0)` is `slice(0)`: nothing is ever evicted. */
  lemma StoredWithZeroCapacityKeepsAll(buffer: seq<Transition>, t: Transition)
    ensures Stored(buffer, t, 0) == buffer + [t]
  {
  }

  /** With a negative capacity, `slice(-capacity)` drops the oldest entries from the front. */
  lemma StoredWithNegativeCapacityDropsFront(buffer: seq<Transition>, t: Transition, capacity: int)
    requires capacity < 0
    ensures Stored(buffer, t, capacity) == (buffer + [t])[if -capacity <= |buffer| + 1 then -capacity else |buffer| + 1..]
  {
  }

  /** The buffer after storing each of `ts` in order. */
  function StoredAll(buffer: seq<Transition>, ts: seq<Transition>, capacity: int): seq<Transition>
    decreases |ts|
  {
    if ts == [] then buffer else StoredAll(Stored(buffer, ts[0], capacity), ts[1..], capacity)
  }

  /** Storing one more transition extends the run of stores by one. */
  lemma {:induction false} StoredAllSnoc(buffer: seq<Transition>, ts: seq<Transition>, t: Transition, capacity: int)
    ensures StoredAll(buffer, ts + [t], capacity) == Stored(StoredAll(buffer, ts, capacity), t, capacity)
    decreases |ts|
  {
    if ts == [] {
      assert ts + [t] == [t];
      assert [t][1..] == [];
    } else {
      assert (ts + [t])[0] == ts[0];
      assert (ts + [t])[1..] == ts[1..] + [t];
      StoredAllSnoc(Stored(buffer, ts[0], capacity), ts[1..], t, capacity);
    }
  }

  /** Whatever the capacity, storing keeps only elements of the old buffer and the new one. */
  lemma StoredElements(buffer: seq<Transition>, t: Transition, capacity: int)
    ensures forall x :: x in Stored(buffer, t, capacity) ==> x in buffer || x == t
  {
    var xs := buffer + [t];
    var start := -capacity;
    var k := if start >= 0 then (if start <= |xs| then start else |xs|)
             else (if |xs| + start >= 0 then |xs| + start else 0);
    assert Stored(buffer, t, capacity) == xs[k..];
    forall x | x in xs[k..] ensures x in buffer || x == t {
      var j :| k <= j < |xs| && xs[j] == x;
    }
  }

  lemma LastOfLast<T>(xs: seq<T>, t: T, c: nat)
    requires c >= 1
    ensures Last(Last(xs, c) + [t], c) == Last(xs + [t], c)
  {
    var ys := xs + [t];
    if |xs| >= c {
      var tail := xs[|xs| - c..];
      var shifted := tail[1..] + [t];
      assert Last(xs, c) + [t] == tail + [t];
      assert Last(tail + [t], c) == shifted by {
        assert (tail + [t])[1..] == shifted;
      }
      assert Last(ys, c) == shifted by {
        assert ys[|ys| - c..] == shifted;
      }
    } else {
      assert Last(xs, c) == xs;
    }
  }

  /** FIFO eviction: however many transitions are stored, the buffer holds exactly the
      most recent `capacity` of everything stored so far, in insertion order. */
  lemma {:induction false} StoredAllKeepsMostRecent(buffer: seq<Transition>, ts: seq<Transition>, capacity: int)
    requires capacity >= 1
    ensures StoredAll(Last(buffer, capacity), ts, capacity) == Last(buffer + ts, capacity)
    decreases |ts|
  {
    if ts == [] {
      assert buffer + ts == buffer;
      LastIsIdempotent(buffer, capacity);
    } else {
      var extended := buffer + [ts[0]];
      StoredOnLast(buffer, ts[0], capacity);
      assert StoredAll(Last(buffer, capacity), ts, capacity)
          == StoredAll(Last(extended, capacity), ts[1..], capacity);
      StoredAllKeepsMostRecent(extended, ts[1..], capacity);
      assert extended + ts[1..] == buffer + ts;
    }
  }

  lemma LastIsIdempotent<T>(xs: seq<T>, c: nat)
    ensures Last(Last(xs, c), c) == Last(xs, c)
  {
  }

  /** Storing into the last `capacity` entries keeps the last `capacity` of the extended run. */
  lemma StoredOnLast(buffer: seq<Transition>, t: Transition, capacity: int)
    requires capacity >= 1
    ensures Stored(Last(buffer, capacity), t, capacity) == Last(buffer + [t], capacity)
  {
    StoredKeepsLast(Last(buffer, capacity), t, capacity);
    LastOfLast(buffer, t, capacity);
  }

  class ReplayMemory {
    const capacity: int
    var transitions: seq<Transition>

    constructor (capacity: int)
      ensures this.capacity == capacity && transitions == []
    {
      this.capacity := capacity;
      transitions := [];
    }

    /** `size`: the number of stored transitions. */
    function Size(): (n: nat)
      reads this
      ensures n == |transitions|
    {
      |transitions|
    }

    method Store(transition: Transition)
      modifies this
      ensures transitions == Stored(old(transitions), transition, capacity)
    {
      transitions := Slice(transitions + [transition], -capacity);
    }

    /** Draws `n` transitions one at a time, each from a working copy that loses the drawn
        entry, so no stored entry is returned twice. The buffer is not written. */
    method Sample(n: nat, rng: Rng.Rng) returns (batch: seq<Transition>)
      requires n <= |transitions|
      modifies rng
      ensures |batch| == n
      ensures multiset(batch) <= multiset(transitions)
    {
      batch := [];
      var pool := transitions;
      var k := 0;
      while k < n
        invariant 0 <= k <= n
        invariant |batch| == k && |pool| == |transitions| - k
        invariant multiset(batch) + multiset(pool) == multiset(transitions)
      {
        var i := rng.SampleIndex(|pool|);
        batch := batch + [pool[i]];
        assert pool == pool[..i] + [pool[i]] + pool[i + 1..];
        pool := pool[..i] + pool[i + 1..];
        k := k + 1;
      }
    }
  }
}
