/** The keyed buffer pool (Sources/Core/Processing/BufferPool.swift): per
    buffer shape it keeps at most eight buffers, each flagged in use or
    free. `rent` hands out the first free buffer of the shape, or a new one
    while fewer than eight exist; `giveBack` frees a buffer again.

    Buffers are identified by a number, as the source compares them by
    object identity. Allocating a buffer is a platform call that may fail:
    `alloc` is the identity of the newly allocated buffer, or `None` when
    allocation fails. The pool's lock is not modelled. */
module BufferPools {
  import opened Ints
  import opened Wrappers

  /** The shape of a buffer: the pool's key. */
  datatype Key = Key(sampleRate: real, channels: UInt32, interleaved: bool, frameCapacity: UInt32)

  datatype PoolBuffer = PoolBuffer(id: nat, key: Key)

  datatype Entry = Entry(buffer: PoolBuffer, inUse: bool)

  type Pool = map<Key, seq<Entry>>

  const MAX_PER_KEY: nat := 8

  /** Every list is at most eight long, holds only buffers of its key, and
      no buffer identity appears twice anywhere in the pool. */
  predicate Valid(pool: Pool) {
    && (forall k :: k in pool ==> |pool[k]| <= MAX_PER_KEY)
    && (forall k, i :: k in pool && 0 <= i < |pool[k]| ==> pool[k][i].buffer.key == k)
    && (forall k, i, j :: k in pool && 0 <= i < j < |pool[k]| ==> pool[k][i].buffer.id != pool[k][j].buffer.id)
  }

  /** `id` names no buffer of the pool. */
  predicate FreshId(pool: Pool, id: nat) {
    forall k, i :: k in pool && 0 <= i < |pool[k]| ==> pool[k][i].buffer.id != id
  }

  /** The buffers currently rented out. */
  function InUse(pool: Pool): set<PoolBuffer> {
    set k, i | k in pool && 0 <= i < |pool[k]| && pool[k][i].inUse :: pool[k][i].buffer
  }

  /** `firstIndex(where: { !$0.inUse })`. */
  function FirstFree(list: seq<Entry>): (r: Option<nat>)
    ensures r.Some? ==> r.value < |list| && !list[r.value].inUse
    ensures r.Some? ==> forall j :: 0 <= j < r.value ==> list[j].inUse
    ensures r.None? ==> forall j :: 0 <= j < |list| ==> list[j].inUse
  {
    if |list| == 0 then None
    else if !list[0].inUse then Some(0)
    else
      var rest := FirstFree(list[1..]);
      if rest.Some? then Some(rest.value + 1) else None
  }

  /** `firstIndex(where: { $0.buffer === buffer })`. */
  function IndexOf(list: seq<Entry>, b: PoolBuffer): (r: Option<nat>)
    ensures r.Some? ==> r.value < |list| && list[r.value].buffer == b
    ensures r.Some? ==> forall j :: 0 <= j < r.value ==> list[j].buffer != b
    ensures r.None? ==> forall j :: 0 <= j < |list| ==> list[j].buffer != b
  {
    if |list| == 0 then None
    else if list[0].buffer == b then Some(0)
    else
      var rest := IndexOf(list[1..], b);
      if rest.Some? then Some(rest.value + 1) else None
  }

  datatype RentResult = RentResult(pool: Pool, buffer: Option<PoolBuffer>)

  /** `rent(format:frameCapacity:)`. */
  function Rent(pool: Pool, key: Key, alloc: Option<nat>): (r: RentResult)
    ensures r.pool.Keys == pool.Keys + (if r.buffer.Some? then {key} else {})
    ensures forall k :: k in pool && k != key ==> r.pool[k] == pool[k]
    ensures r.buffer.None? ==> r.pool == pool
  {
    if key in pool then
      var list := pool[key];
      match FirstFree(list)
      case Some(idx) =>
        RentResult(pool[key := list[idx := list[idx].(inUse := true)]], Some(list[idx].buffer))
      case None =>
        if |list| < MAX_PER_KEY && alloc.Some? then
          var buf := PoolBuffer(alloc.value, key);
          RentResult(pool[key := list + [Entry(buf, true)]], Some(buf))
        else RentResult(pool, None)
    else if alloc.None? then RentResult(pool, None)
    else
      var buf := PoolBuffer(alloc.value, key);
      RentResult(pool[key := [Entry(buf, true)]], Some(buf))
  }

  /** `giveBack(_:)`: the buffer's own shape selects the list. */
  function GiveBack(pool: Pool, b: PoolBuffer): (p: Pool)
    ensures p.Keys == pool.Keys
    ensures forall k :: k in pool && k != b.key ==> p[k] == pool[k]
  {
    if b.key !in pool then pool
    else
      var list := pool[b.key];
      match IndexOf(list, b)
      case Some(idx) => pool[b.key := list[idx := list[idx].(inUse := false)]]
      case None => pool
  }

  /** Both operations keep the pool valid; in particular no key ever holds
      more than eight buffers. */
  lemma RentValid(pool: Pool, key: Key, alloc: Option<nat>)
    requires Valid(pool)
    requires alloc.Some? ==> FreshId(pool, alloc.value)
    ensures Valid(Rent(pool, key, alloc).pool)
    ensures Rent(pool, key, alloc).buffer.Some? ==> Rent(pool, key, alloc).buffer.value.key == key
  {
    if key in pool {
      var list := pool[key];
      var r := Rent(pool, key, alloc);
      if FirstFree(list).None? && |list| < MAX_PER_KEY && alloc.Some? {
        var list' := r.pool[key];
        assert list' == list + [Entry(PoolBuffer(alloc.value, key), true)];
        forall i, j | 0 <= i < j < |list'|
          ensures list'[i].buffer.id != list'[j].buffer.id
        {
          if j == |list| {
            assert list'[i] == list[i];
          }
        }
      }
    }
  }

  lemma GiveBackValid(pool: Pool, b: PoolBuffer)
    requires Valid(pool)
    ensures Valid(GiveBack(pool, b))
  {
  }

  /** The buffer `rent` hands out: the first free one of its shape, flagged
      in use in place; or, when all are in use and fewer than eight exist, a
      new buffer appended in use; or nothing, with the pool unchanged, when
      eight are in use or allocation fails. */
  lemma RentCases(pool: Pool, key: Key, alloc: Option<nat>)
    ensures var r := Rent(pool, key, alloc);
      && (key in pool && FirstFree(pool[key]).Some? ==>
            var idx := FirstFree(pool[key]).value;
            && r.buffer == Some(pool[key][idx].buffer)
            && |r.pool[key]| == |pool[key]|
            && r.pool[key][idx].inUse
            && (forall j :: 0 <= j < |pool[key]| && j != idx ==> r.pool[key][j] == pool[key][j]))
      && (key in pool && FirstFree(pool[key]).None? && |pool[key]| < MAX_PER_KEY && alloc.Some? ==>
            && r.buffer == Some(PoolBuffer(alloc.value, key))
            && r.pool[key] == pool[key] + [Entry(PoolBuffer(alloc.value, key), true)])
      && (key in pool && FirstFree(pool[key]).None? && |pool[key]| >= MAX_PER_KEY ==>
            r.buffer.None? && r.pool == pool)
      && (key !in pool && alloc.Some? ==>
            && r.buffer == Some(PoolBuffer(alloc.value, key))
            && r.pool[key] == [Entry(PoolBuffer(alloc.value, key), true)])
      && (alloc.None? && !(key in pool && FirstFree(pool[key]).Some?) ==> r.buffer.None? && r.pool == pool)
  {
  }

  /** A buffer `rent` hands out was not in use before and is in use after. */
  lemma RentMarksInUse(pool: Pool, key: Key, alloc: Option<nat>)
    requires Valid(pool)
    requires alloc.Some? ==> FreshId(pool, alloc.value)
    requires Rent(pool, key, alloc).buffer.Some?
    ensures Rent(pool, key, alloc).buffer.value !in InUse(pool)
    ensures InUse(Rent(pool, key, alloc).pool) == InUse(pool) + {Rent(pool, key, alloc).buffer.value}
  {
    var r := Rent(pool, key, alloc);
    var b := r.buffer.value;
    if key in pool && FirstFree(pool[key]).Some? {
      var idx := FirstFree(pool[key]).value;
      RentReuseInUse(pool, key, idx);
    } else if key in pool {
      RentAppendInUse(pool, key, b);
    } else {
      RentNewInUse(pool, key, b);
    }
  }

  lemma RentReuseInUse(pool: Pool, key: Key, idx: nat)
    requires Valid(pool)
    requires key in pool && idx < |pool[key]| && !pool[key][idx].inUse
    ensures var p := pool[key := pool[key][idx := pool[key][idx].(inUse := true)]];
      && pool[key][idx].buffer !in InUse(pool)
      && InUse(p) == InUse(pool) + {pool[key][idx].buffer}
  {
    var list := pool[key];
    var b := list[idx].buffer;
    var p := pool[key := list[idx := list[idx].(inUse := true)]];
    forall k, i | k in pool && 0 <= i < |pool[k]| && pool[k][i].inUse
      ensures pool[k][i].buffer != b
    {
    }
    forall x | x in InUse(p)
      ensures x in InUse(pool) + {b}
    {
      var k, i :| k in p && 0 <= i < |p[k]| && p[k][i].inUse && p[k][i].buffer == x;
      if k != key || i != idx {
        assert pool[k][i] == p[k][i];
      }
    }
    forall x | x in InUse(pool) + {b}
      ensures x in InUse(p)
    {
      if x == b {
        assert p[key][idx].buffer == b && p[key][idx].inUse;
      } else {
        var k, i :| k in pool && 0 <= i < |pool[k]| && pool[k][i].inUse && pool[k][i].buffer == x;
        assert p[k][i] == pool[k][i];
      }
    }
  }

  lemma RentAppendInUse(pool: Pool, key: Key, b: PoolBuffer)
    requires Valid(pool) && FreshId(pool, b.id) && b.key == key
    requires key in pool
    ensures var p := pool[key := pool[key] + [Entry(b, true)]];
      && b !in InUse(pool)
      && InUse(p) == InUse(pool) + {b}
  {
    var list := pool[key];
    var p := pool[key := list + [Entry(b, true)]];
    forall x | x in InUse(p)
      ensures x in InUse(pool) + {b}
    {
      var k, i :| k in p && 0 <= i < |p[k]| && p[k][i].inUse && p[k][i].buffer == x;
      if k != key || i < |list| {
        assert pool[k][i] == p[k][i];
      }
    }
    forall x | x in InUse(pool) + {b}
      ensures x in InUse(p)
    {
      if x == b {
        assert p[key][|list|].buffer == b && p[key][|list|].inUse;
      } else {
        var k, i :| k in pool && 0 <= i < |pool[k]| && pool[k][i].inUse && pool[k][i].buffer == x;
        assert p[k][i] == pool[k][i];
      }
    }
  }

  lemma RentNewInUse(pool: Pool, key: Key, b: PoolBuffer)
    requires Valid(pool) && FreshId(pool, b.id) && b.key == key
    requires key !in pool
    ensures b !in InUse(pool)
    ensures InUse(pool[key := [Entry(b, true)]]) == InUse(pool) + {b}
  {
    var p := pool[key := [Entry(b, true)]];
    forall x | x in InUse(p)
      ensures x in InUse(pool) + {b}
    {
      var k, i :| k in p && 0 <= i < |p[k]| && p[k][i].inUse && p[k][i].buffer == x;
      if k != key {
        assert pool[k][i] == p[k][i];
      }
    }
    forall x | x in InUse(pool) + {b}
      ensures x in InUse(p)
    {
      if x == b {
        assert p[key][0].buffer == b;
      } else {
        var k, i :| k in pool && 0 <= i < |pool[k]| && pool[k][i].inUse && pool[k][i].buffer == x;
        assert p[k][i] == pool[k][i];
      }
    }
  }

  /** `giveBack` frees exactly the given buffer: it is no longer in use and
      every other buffer keeps its state. An unknown shape or buffer
      changes nothing. */
  lemma GiveBackFrees(pool: Pool, b: PoolBuffer)
    requires Valid(pool)
    ensures InUse(GiveBack(pool, b)) == InUse(pool) - {b}
    ensures (b.key !in pool || IndexOf(pool[b.key], b).None?) ==> GiveBack(pool, b) == pool
  {
    var p := GiveBack(pool, b);
    if b.key in pool && IndexOf(pool[b.key], b).Some? {
      var key := b.key;
      var idx := IndexOf(pool[key], b).value;
      forall x | x in InUse(p)
        ensures x in InUse(pool) - {b}
      {
        var k, i :| k in p && 0 <= i < |p[k]| && p[k][i].inUse && p[k][i].buffer == x;
        assert pool[k][i] == p[k][i];
        assert k == key ==> i != idx;
      }
      forall x | x in InUse(pool) - {b}
        ensures x in InUse(p)
      {
        var k, i :| k in pool && 0 <= i < |pool[k]| && pool[k][i].inUse && pool[k][i].buffer == x;
        assert p[k][i] == pool[k][i];
      }
    } else {
      forall k, i | k in pool && 0 <= i < |pool[k]| && pool[k][i].inUse
        ensures pool[k][i].buffer != b
      {
      }
    }
  }

  /** Renting a buffer and giving it back restores the set of rented
      buffers. */
  lemma RentThenGiveBack(pool: Pool, key: Key, alloc: Option<nat>)
    requires Valid(pool)
    requires alloc.Some? ==> FreshId(pool, alloc.value)
    requires Rent(pool, key, alloc).buffer.Some?
    ensures var r := Rent(pool, key, alloc);
            InUse(GiveBack(r.pool, r.buffer.value)) == InUse(pool)
  {
    var r := Rent(pool, key, alloc);
    RentValid(pool, key, alloc);
    RentMarksInUse(pool, key, alloc);
    GiveBackFrees(r.pool, r.buffer.value);
  }

  /** Giving a buffer back only flips a flag: no list changes length. */
  lemma GiveBackKeepsLengths(pool: Pool, b: PoolBuffer)
    ensures forall k :: k in pool ==> |GiveBack(pool, b)[k]| == |pool[k]|
  {
  }

  /** When nothing is lent out, a rent succeeds whenever the shape has a
      buffer to reuse or a new one can be allocated. */
  lemma NoneInUseRents(pool: Pool, key: Key, alloc: Option<nat>)
    requires InUse(pool) == {}
    requires (key in pool && |pool[key]| > 0) || alloc.Some?
    ensures Rent(pool, key, alloc).buffer.Some?
  {
    if key in pool && |pool[key]| > 0 {
      var list := pool[key];
      assert list[0].buffer !in InUse(pool);
      assert !list[0].inUse;
    }
  }
}
