/**
 The planning-time offset allocator of a graph: it hands out byte offsets
 inside one arena that does not exist yet, keeps the freed ranges in an
 address-ordered free list (start offset -> length) and, on the first request
 for the arena's address, asks the runtime once for `peak` bytes. After that
 no further planning is allowed.

 `used` and `peak` are `size_t` counters: their arithmetic is taken modulo
 2^64 (see `Wrap`). Offsets and block lengths in the free list are unbounded.
 */
module Allocation {
  import opened Common

  /** `sizeof(uint64_t)`, the widest element type a tensor can have. */
  const Alignment: nat := 8

  /** Number of distinct `size_t` values. */
  const SizeModulus: int := 0x1_0000_0000_0000_0000

  /**
   An unsigned 64-bit result: wrap-around modulo 2^64, for the results of one
   addition or subtraction of two `size_t` values.
   */
  function Wrap(x: int): (r: nat)
    requires -SizeModulus <= x < 2 * SizeModulus
    ensures r < SizeModulus && (r - x) % SizeModulus == 0
    ensures 0 <= x < SizeModulus ==> r == x
  {
    if x < 0 then x + SizeModulus else if x < SizeModulus then x else x - SizeModulus
  }

  /**
   `((size - 1) / alignment + 1) * alignment` in `size_t` arithmetic. A size
   of 0 underflows and wraps round to 0.
   */
  function AlignedSize(size: nat): (r: nat)
    requires size < SizeModulus
    ensures r < SizeModulus && r % Alignment == 0
    ensures size == 0 ==> r == 0
  {
    Wrap((Wrap(size - 1) / Alignment + 1) * Alignment)
  }

  /** For every size that does not overflow, the result is the least multiple of 8 at or above it. */
  lemma AlignedSizeIsLeastMultiple(size: nat)
    requires 1 <= size <= SizeModulus - Alignment
    ensures AlignedSize(size) % Alignment == 0
    ensures size <= AlignedSize(size) < size + Alignment
  {
    var q := (size - 1) / Alignment;
    assert q * Alignment <= size - 1 < q * Alignment + Alignment;
    assert (q + 1) * Alignment == q * Alignment + Alignment;
    assert AlignedSize(size) == (q + 1) * Alignment;
  }

  /** The free list: start offset of a free block -> its length, ordered by offset. */
  type FreeList = map<nat, nat>

  /**
   The free-list invariant: every block is non-empty, and blocks neither
   overlap nor touch (two blocks that touch would have been merged).
   */
  ghost predicate Coalesced(b: FreeList)
  {
    && (forall k :: k in b ==> b[k] > 0)
    && (forall k1, k2 :: k1 in b && k2 in b && k1 < k2 ==> k1 + b[k1] < k2)
  }

  /** Byte `x` lies in some free block. */
  ghost predicate IsFree(b: FreeList, x: nat)
  {
    exists k :: k in b && k <= x < k + b[k]
  }

  /** The range `[addr, addr + len)` shares a byte, or an empty block, with the free list. */
  ghost predicate Overlaps(b: FreeList, addr: nat, len: nat)
  {
    exists k :: k in b && k < addr + len && addr < k + b[k]
  }

  lemma {:induction false} LeastExists(s: set<nat>)
    requires s != {}
    ensures exists m :: m in s && forall x :: x in s ==> m <= x
  {
    var y :| y in s;
    if s != {y} {
      LeastExists(s - {y});
      var m :| m in s - {y} && forall x :: x in s - {y} ==> m <= x;
      var w := if y < m then y else m;
      forall x | x in s ensures w <= x {
        if x != y {
          assert x in s - {y};
        }
      }
    } else {
      assert forall x :: x in s ==> y <= x;
    }
  }

  lemma {:induction false} GreatestExists(s: set<nat>)
    requires s != {}
    ensures exists m :: m in s && forall x :: x in s ==> x <= m
  {
    var y :| y in s;
    if s != {y} {
      GreatestExists(s - {y});
      var m :| m in s - {y} && forall x :: x in s - {y} ==> x <= m;
      var w := if y > m then y else m;
      forall x | x in s ensures x <= w {
        if x != y {
          assert x in s - {y};
        }
      }
    } else {
      assert forall x :: x in s ==> x <= y;
    }
  }

  /** The smallest element: what `begin()` of an ordered set points at. */
  ghost function Least(s: set<nat>): (m: nat)
    requires s != {}
    ensures m in s && forall x :: x in s ==> m <= x
  {
    LeastExists(s);
    var m :| m in s && forall x :: x in s ==> m <= x;
    m
  }

  /** The largest element: what `std::prev` of the lower bound points at. */
  ghost function Greatest(s: set<nat>): (m: nat)
    requires s != {}
    ensures m in s && forall x :: x in s ==> x <= m
  {
    GreatestExists(s);
    var m :| m in s && forall x :: x in s ==> x <= m;
    m
  }

  /**
   First fit in address order: the lowest-addressed free block whose length
   is at least `size`, or None when no block is long enough.
   */
  ghost function FirstFit(b: FreeList, size: nat): (r: Option<nat>)
    ensures r.Some? ==> r.value in b && b[r.value] >= size
    ensures r.Some? ==> forall k :: k in b && k < r.value ==> b[k] < size
    ensures r.None? <==> forall k :: k in b ==> b[k] < size
  {
    var fits := set k | k in b && b[k] >= size;
    assert forall k :: k in b && b[k] >= size ==> k in fits;
    if fits == {} then None else Some(Least(fits))
  }

  /** A block that fits, below which nothing fits, is the first fit. */
  lemma FirstFitIs(b: FreeList, size: nat, start: nat)
    requires start in b && b[start] >= size
    requires forall k :: k in b && k < start ==> b[k] < size
    ensures FirstFit(b, size) == Some(start)
  {
    var ff := FirstFit(b, size);
    assert ff.Some? ==> !(start < ff.value);
  }

  /** When no block at or above `lo` exists and none below fits, nothing fits. */
  lemma FirstFitNone(b: FreeList, size: nat, lo: nat)
    requires forall k :: k in b ==> k < lo
    requires forall k :: k in b && k < lo ==> b[k] < size
    ensures FirstFit(b, size) == None
  {
  }

  /**
   The free-list update of a successful `alloc`, in the source's order: the
   remainder is inserted at `start + size` first and the block at `start` is
   erased afterwards.
   */
  function TakeBlock(b: FreeList, start: nat, size: nat): FreeList
    requires start in b
  {
    var len := b[start];
    (if len > size then b[start + size := len - size] else b) - {start}
  }

  /**
   The evidently intended free-list update of a successful allocation: erase
   the block at `start`, then insert the remainder, if any.
   */
  function CarveBlock(b: FreeList, start: nat, size: nat): FreeList
    requires start in b
  {
    var len := b[start];
    var rest := b - {start};
    if len > size then rest[start + size := len - size] else rest
  }

  /** For a positive size the two orders agree. */
  lemma TakeBlockIsCarve(b: FreeList, start: nat, size: nat)
    requires start in b && size > 0
    ensures TakeBlock(b, start, size) == CarveBlock(b, start, size)
  {
  }

  /** The as-written split keeps the free list coalesced, for every size that fits. */
  lemma TakeBlockCoalesced(b: FreeList, start: nat, size: nat)
    requires Coalesced(b) && start in b && size <= b[start]
    ensures Coalesced(TakeBlock(b, start, size))
  {
    if size > 0 {
      TakeBlockIsCarve(b, start, size);
      CarveBlockCoalesced(b, start, size);
    }
  }

  /**
   An allocation of aligned size 0 as written inserts the remainder at
   `start + 0`, overwriting the block, and then erases it: the whole block
   leaves the free list although nothing was handed out.
   */
  lemma TakeBlockZeroDropsBlock(b: FreeList, start: nat)
    requires Coalesced(b) && start in b
    ensures TakeBlock(b, start, 0) == b - {start}
    ensures forall x :: start <= x < start + b[start] ==> IsFree(b, x) && !IsFree(TakeBlock(b, start, 0), x)
  {
    var r := TakeBlock(b, start, 0);
    forall x: nat | start <= x < start + b[start] ensures IsFree(b, x) && !IsFree(r, x) {
      forall k | k in r ensures !(k <= x < k + r[k]) {
        assert k in b && k != start && r[k] == b[k];
        if k < start {
          assert k + b[k] < start;
        } else {
          assert start + b[start] < k;
        }
      }
    }
  }

  /**
   Carving `[start, start + size)` out of a fitting block keeps the free list
   coalesced, and exactly the carved bytes stop being free.
   */
  lemma CarveBlockCarves(b: FreeList, start: nat, size: nat)
    requires Coalesced(b) && start in b && size <= b[start]
    ensures Coalesced(CarveBlock(b, start, size))
    ensures forall x: nat :: IsFree(CarveBlock(b, start, size), x) <==> IsFree(b, x) && !(start <= x < start + size)
  {
    CarveBlockCoalesced(b, start, size);
    forall x: nat ensures IsFree(CarveBlock(b, start, size), x) <==> IsFree(b, x) && !(start <= x < start + size) {
      CarveBlockByte(b, start, size, x);
    }
  }

  lemma CarveBlockCoalesced(b: FreeList, start: nat, size: nat)
    requires Coalesced(b) && start in b && size <= b[start]
    ensures Coalesced(CarveBlock(b, start, size))
  {
    var r := CarveBlock(b, start, size);
    forall k1, k2 | k1 in r && k2 in r && k1 < k2 ensures k1 + r[k1] < k2 {
      if k1 == start + size && size < b[start] {
        assert k2 in b && k2 > start;
      } else if k2 == start + size && size < b[start] {
        assert k1 in b && k1 < start;
      } else {
        assert k1 in b && k2 in b && r[k1] == b[k1];
      }
    }
  }

  lemma CarveBlockByte(b: FreeList, start: nat, size: nat, x: nat)
    requires Coalesced(b) && start in b && size <= b[start]
    ensures IsFree(CarveBlock(b, start, size), x) <==> IsFree(b, x) && !(start <= x < start + size)
  {
    var r := CarveBlock(b, start, size);
    var len := b[start];
    if IsFree(r, x) {
      var k :| k in r && k <= x < k + r[k];
      if len > size && k == start + size {
        assert start <= x < start + len;
      } else {
        assert k in b && k != start && r[k] == b[k];
        if k < start {
          assert k + b[k] < start;
        } else {
          assert start + b[start] < k;
        }
      }
    }
    if IsFree(b, x) && !(start <= x < start + size) {
      var k :| k in b && k <= x < k + b[k];
      if k == start {
        assert start + size <= x < start + len;
        assert start + size in r && r[start + size] == len - size;
      } else {
        assert k in r && r[k] == b[k];
      }
    }
  }

  /** The last block that starts below `addr`: `std::prev(lower_bound(addr))`. */
  ghost function KeyBelow(b: FreeList, addr: nat): (r: Option<nat>)
    ensures r.Some? ==> r.value in b && r.value < addr
    ensures r.Some? ==> forall k :: k in b && k < addr ==> k <= r.value
    ensures r.None? ==> forall k :: k in b ==> addr <= k
  {
    var below := set k | k in b && k < addr;
    assert forall k :: k in b && k < addr ==> k in below;
    if below == {} then None else Some(Greatest(below))
  }

  /** The first block that starts at or above `addr`: `lower_bound(addr)`. */
  ghost function KeyAtOrAbove(b: FreeList, addr: nat): (r: Option<nat>)
    ensures r.Some? ==> r.value in b && addr <= r.value
    ensures r.Some? ==> forall k :: k in b && addr <= k ==> r.value <= k
    ensures r.None? ==> forall k :: k in b ==> k < addr
  {
    var above := set k | k in b && addr <= k;
    assert forall k :: k in b && addr <= k ==> k in above;
    if above == {} then None else Some(Least(above))
  }

  /** Where the merged block of `free` starts: at the block just below `addr` if it ends at `addr`. */
  ghost function MergedStart(b: FreeList, addr: nat): (r: nat)
    ensures r <= addr
  {
    var p := KeyBelow(b, addr);
    if p.Some? && p.value + b[p.value] == addr then p.value else addr
  }

  /**
   The free list after storing one block from `start` to `e`, extended by the
   block at `e` when `swallow` holds; the blocks at `start` and (when
   swallowed) at `e` are replaced by it.
   */
  ghost function Merged(b: FreeList, start: nat, e: nat, swallow: bool): FreeList
    requires start <= e
  {
    var tail := if swallow && e in b then b[e] else 0;
    (b - {start} - (if swallow then {e} else {}))[start := e + tail - start]
  }

  /**
   The free-list update of `free`: the block just below `addr` is merged when
   it ends at `addr` (which moves the start down to it and keeps the end at
   `addr + size`), the first block at or above `addr` is merged when it starts
   at that end, and the merged range is stored at its start, overwriting
   whatever was there.
   */
  ghost function Coalesce(b: FreeList, addr: nat, size: nat): FreeList
  {
    Merged(b, MergedStart(b, addr), addr + size, KeyAtOrAbove(b, addr) == Some(addr + size))
  }

  /** A range that overlaps no block lies entirely after every block below it. */
  lemma BlocksBelowEndBefore(b: FreeList, addr: nat, size: nat)
    requires size > 0 && !Overlaps(b, addr, size)
    ensures forall k :: k in b && k < addr ==> k + b[k] <= addr
  {
    forall k | k in b && k < addr ensures k + b[k] <= addr {
      assert !(k < addr + size && addr < k + b[k]);
    }
  }

  /** A range that overlaps no non-empty block lies entirely before every block at or above it. */
  lemma BlocksAboveStartAfter(b: FreeList, addr: nat, size: nat)
    requires Coalesced(b) && size > 0 && !Overlaps(b, addr, size)
    ensures forall k :: k in b && addr <= k ==> addr + size <= k
  {
    forall k | k in b && addr <= k ensures addr + size <= k {
      assert b[k] > 0;
    }
  }

  /**
   The merged block starts at the block that ends exactly at `addr` when
   there is one, and at `addr` otherwise; the blocks before it end strictly
   before it, and the blocks after it start after the freed range.
   */
  lemma MergedStartFacts(b: FreeList, addr: nat, size: nat)
    requires Coalesced(b) && size > 0 && !Overlaps(b, addr, size)
    ensures var start := MergedStart(b, addr);
      && (start != addr <==> exists k :: k in b && k + b[k] == addr)
      && (start != addr ==> start in b)
      && (start in b ==> start + b[start] == addr)
      && addr !in b
      && start <= addr
      && (forall k :: k in b && k < start ==> k + b[k] < start)
      && (forall k :: k in b && start < k ==> addr + size <= k)
  {
    BlocksBelowEndBefore(b, addr, size);
    BlocksAboveStartAfter(b, addr, size);
    var p := KeyBelow(b, addr);
    var start := MergedStart(b, addr);
    forall k | k in b && k + b[k] == addr ensures start != addr {
      assert k < addr && p.Some? && k <= p.value;
    }
    forall k | k in b && k < start ensures k + b[k] < start {
      if start == addr && p.Some? && k < p.value {
        assert k + b[k] < p.value;
      }
    }
    forall k | k in b && start < k ensures addr + size <= k {
      assert addr <= k;
    }
  }

  /**
   The first block at or above a non-overlapping freed range is swallowed
   exactly when some block starts where the range ends.
   */
  lemma SwallowsNext(b: FreeList, addr: nat, size: nat)
    requires Coalesced(b) && size > 0 && !Overlaps(b, addr, size)
    ensures KeyAtOrAbove(b, addr) == Some(addr + size) <==> addr + size in b
  {
    BlocksAboveStartAfter(b, addr, size);
  }

  /** The merged free list of a non-overlapping `free` is coalesced again. */
  lemma CoalesceCoalesced(b: FreeList, addr: nat, size: nat)
    requires Coalesced(b) && size > 0 && !Overlaps(b, addr, size)
    ensures Coalesced(Coalesce(b, addr, size))
  {
    MergedStartFacts(b, addr, size);
    SwallowsNext(b, addr, size);
    MergedCoalesced(b, MergedStart(b, addr), addr, addr + size, addr + size in b);
  }

  /**
   Freeing an empty range changes nothing when `addr` starts or ends a free
   block; otherwise it stores an empty block at `addr`, and the free list is
   no longer coalesced.
   */
  lemma CoalesceEmptyRange(b: FreeList, addr: nat)
    requires Coalesced(b)
    ensures (addr in b || exists k :: k in b && k + b[k] == addr) ==> Coalesce(b, addr, 0) == b
    ensures !(addr in b || exists k :: k in b && k + b[k] == addr) ==>
      Coalesce(b, addr, 0) == b[addr := 0] && !Coalesced(Coalesce(b, addr, 0))
  {
    if addr in b {
      EmptyFreeAtStart(b, addr);
    } else if exists k :: k in b && k + b[k] == addr {
      var k: nat :| k in b && k + b[k] == addr;
      EmptyFreeAtEnd(b, addr, k);
    } else {
      EmptyFreeElsewhere(b, addr);
    }
  }

  /** Freeing an empty range at the start of a free block stores that block again. */
  lemma EmptyFreeAtStart(b: FreeList, addr: nat)
    requires Coalesced(b) && addr in b
    ensures Coalesce(b, addr, 0) == b
  {
    var p := KeyBelow(b, addr);
    if p.Some? {
      assert p.value + b[p.value] < addr;
    }
    assert MergedStart(b, addr) == addr;
    assert KeyAtOrAbove(b, addr) == Some(addr);
  }

  /** Freeing an empty range at the end of free block `k` stores that block again. */
  lemma EmptyFreeAtEnd(b: FreeList, addr: nat, k: nat)
    requires Coalesced(b) && addr !in b && k in b && k + b[k] == addr
    ensures Coalesce(b, addr, 0) == b
  {
    var p := KeyBelow(b, addr);
    assert p.Some? && k <= p.value;
    assert MergedStart(b, addr) == k;
  }

  /** Freeing an empty range that neither starts nor ends a free block stores an empty block. */
  lemma EmptyFreeElsewhere(b: FreeList, addr: nat)
    requires Coalesced(b) && addr !in b
    requires forall k :: k in b ==> k + b[k] != addr
    ensures Coalesce(b, addr, 0) == b[addr := 0]
  {
    assert MergedStart(b, addr) == addr;
  }

  lemma MergedCoalesced(b: FreeList, start: nat, addr: nat, e: nat, swallow: bool)
    requires Coalesced(b) && start <= addr < e && (swallow <==> e in b)
    requires forall k :: k in b && k < start ==> k + b[k] < start
    requires forall k :: k in b && start < k ==> e <= k
    ensures Coalesced(Merged(b, start, e, swallow))
  {
    var r := Merged(b, start, e, swallow);
    forall k | k in r ensures r[k] > 0 {
      if k != start {
        assert k in b && r[k] == b[k];
      }
    }
    forall k1, k2 | k1 in r && k2 in r && k1 < k2 ensures k1 + r[k1] < k2 {
      if k1 == start {
        assert k2 in b && k2 != e;
        if e in b {
          assert e + b[e] < k2;
        }
      } else if k2 == start {
        assert k1 in b && r[k1] == b[k1];
      } else {
        assert k1 in b && k2 in b && r[k1] == b[k1];
      }
    }
  }

  /** Freeing a non-overlapping non-empty range adds exactly its bytes to the free ones. */
  lemma CoalesceFreesRange(b: FreeList, addr: nat, size: nat)
    requires Coalesced(b) && size > 0 && !Overlaps(b, addr, size)
    ensures forall x: nat :: IsFree(Coalesce(b, addr, size), x) <==> IsFree(b, x) || addr <= x < addr + size
  {
    MergedStartFacts(b, addr, size);
    SwallowsNext(b, addr, size);
    var start, e := MergedStart(b, addr), addr + size;
    assert Coalesce(b, addr, size) == Merged(b, start, e, e in b);
    forall x: nat ensures IsFree(Merged(b, start, e, e in b), x) <==> IsFree(b, x) || addr <= x < e {
      MergedByte(b, start, addr, e, e in b, x);
    }
  }

  /**
   Freeing exactly what a corrected allocation just carved out of a
   coalesced free list gives the free list back unchanged.
   */
  lemma FreeUndoesCarve(b: FreeList, start: nat, size: nat)
    requires Coalesced(b) && start in b && 0 < size <= b[start]
    ensures Coalesce(CarveBlock(b, start, size), start, size) == b
  {
    var r := CarveBlock(b, start, size);
    var len := b[start];
    CarvedRangeIsolated(b, start, size);
    MergedStartFacts(r, start, size);
    SwallowsNext(r, start, size);
    assert MergedStart(r, start) == start;
    assert start + size in r <==> len > size;
    var m := Merged(r, start, start + size, start + size in r);
    assert start in m && m[start] == len;
    assert m == b;
  }

  /**
   Right after a carve, the carved range touches no free block from below
   and overlaps none.
   */
  lemma CarvedRangeIsolated(b: FreeList, start: nat, size: nat)
    requires Coalesced(b) && start in b && 0 < size <= b[start]
    ensures Coalesced(CarveBlock(b, start, size))
    ensures !Overlaps(CarveBlock(b, start, size), start, size)
    ensures forall k :: k in CarveBlock(b, start, size) ==> k + CarveBlock(b, start, size)[k] != start
  {
    var r := CarveBlock(b, start, size);
    CarveBlockCoalesced(b, start, size);
    forall k | k in r ensures !(k < start + size && start < k + r[k]) && k + r[k] != start {
      if k != start + size {
        assert k in b && k != start && r[k] == b[k];
        if k < start {
          assert k + b[k] < start;
        } else {
          assert start + b[start] < k;
        }
      }
    }
  }

  lemma MergedByte(b: FreeList, start: nat, addr: nat, e: nat, swallow: bool, x: nat)
    requires start <= addr < e && (swallow <==> e in b)
    requires start != addr ==> start in b
    requires start in b ==> start + b[start] == addr
    ensures IsFree(Merged(b, start, e, swallow), x) <==> IsFree(b, x) || addr <= x < e
  {
    var tail := if e in b then b[e] else 0;
    var r := Merged(b, start, e, swallow);
    assert start in r && r[start] == e + tail - start;
    if IsFree(r, x) {
      var k :| k in r && k <= x < k + r[k];
      if k == start {
        if x >= e {
          assert e in b && e <= x < e + b[e];
        } else if x < addr {
          assert start <= x < start + b[start];
        }
      } else {
        assert k in b && r[k] == b[k];
      }
    }
    if IsFree(b, x) {
      var k :| k in b && k <= x < k + b[k];
      if k == start || k == e {
        assert start <= x < start + r[start];
      } else {
        assert k in r && r[k] == b[k];
      }
    }
    if addr <= x < e {
      assert start <= x < start + r[start];
    }
  }

  /** The arena once it exists: the runtime's base address and the bytes requested. */
  datatype Arena = Arena(base: nat, bytes: nat)

  class Allocator {
    var used: nat
    var peak: nat
    var freeBlocks: FreeList
    /** The materialized arena; None stands for the null `ptr`. */
    var ptr: Option<Arena>

    /** The counters are `size_t` values. */
    ghost predicate Valid()
      reads this
    {
      used < SizeModulus && peak < SizeModulus
    }

    constructor ()
      ensures Valid()
      ensures used == 0 && peak == 0 && freeBlocks == map[] && ptr == None
    {
      used := 0;
      peak := 0;
      freeBlocks := map[];
      ptr := None;
    }

    /**
     The search loop of `alloc`: walks the free list in address order and
     stops at the first block that is long enough.
     */
    method FindFit(s: nat) returns (fit: Option<nat>)
      ensures fit == FirstFit(freeBlocks, s)
    {
      var lo: nat := 0;
      var rest := freeBlocks.Keys;
      while rest != {}
        invariant rest == set k | k in freeBlocks && lo <= k
        invariant forall k :: k in freeBlocks && k < lo ==> freeBlocks[k] < s
        decreases rest
      {
        LeastExists(rest);
        var start :| start in rest && forall j :: j in rest ==> start <= j;
        forall k | k in freeBlocks && k < start + 1 ensures k < lo || k == start {
          if k >= lo {
            assert k in rest;
          }
        }
        if freeBlocks[start] >= s {
          FirstFitIs(freeBlocks, s, start);
          return Some(start);
        }
        lo := start + 1;
        rest := rest - {start};
      }
      forall k | k in freeBlocks ensures k < lo {
        assert k in rest <==> lo <= k;
      }
      FirstFitNone(freeBlocks, s, lo);
      return None;
    }

    /**
     First fit over the free list in address order. A fitting block is split;
     when nothing fits the call returns 0 and changes nothing.
     */
    method Alloc(size: nat) returns (addr: nat)
      requires Valid() && ptr.None? && size < SizeModulus
      modifies this
      ensures Valid() && ptr == old(ptr)
      ensures FirstFit(old(freeBlocks), AlignedSize(size)).None? ==>
        addr == 0 && freeBlocks == old(freeBlocks) && used == old(used) && peak == old(peak)
      ensures FirstFit(old(freeBlocks), AlignedSize(size)).Some? ==>
        && addr == FirstFit(old(freeBlocks), AlignedSize(size)).value
        && freeBlocks == TakeBlock(old(freeBlocks), addr, AlignedSize(size))
        && used == Wrap(old(used) + AlignedSize(size))
        && peak == (if used > old(peak) then used else old(peak))
      ensures Coalesced(old(freeBlocks)) ==> Coalesced(freeBlocks)
    {
      var s := AlignedSize(size);
      var fit := FindFit(s);
      if fit.None? {
        return 0;
      }
      var start := fit.value;
      if Coalesced(freeBlocks) {
        TakeBlockCoalesced(freeBlocks, start, s);
      }
      freeBlocks := TakeBlock(freeBlocks, start, s);
      used := Wrap(used + s);
      if used > peak {
        peak := used;
      }
      addr := start;
    }

    /**
     Returns `[addr, addr + size)` to the free list, merging it with the
     neighbouring blocks it touches, and lowers `used`.
     */
    method Free(addr: nat, size: nat)
      requires Valid() && ptr.None? && size < SizeModulus
      modifies this
      ensures Valid() && ptr == old(ptr) && peak == old(peak)
      ensures used == Wrap(old(used) - AlignedSize(size))
      ensures freeBlocks == Coalesce(old(freeBlocks), addr, AlignedSize(size))
    {
      var s := AlignedSize(size);
      used := Wrap(used - s);
      var it := LowerBound(addr);
      var prev := BlockBefore(addr);
      var start := addr;
      if prev.Some? && prev.value + freeBlocks[prev.value] == addr {
        start := prev.value;
        s := s + freeBlocks[prev.value];
        freeBlocks := freeBlocks - {prev.value};
      }
      if it.Some? && start + s == it.value {
        s := s + freeBlocks[it.value];
        freeBlocks := freeBlocks - {it.value};
      }
      freeBlocks := freeBlocks[start := s];
    }

    /** `free_blocks.lower_bound(addr)`: the first block starting at or after `addr`. */
    method LowerBound(addr: nat) returns (it: Option<nat>)
      ensures it == KeyAtOrAbove(freeBlocks, addr)
    {
      var above := set k | k in freeBlocks && addr <= k;
      if above == {} {
        it := None;
      } else {
        LeastExists(above);
        var next :| next in above && forall x :: x in above ==> next <= x;
        it := Some(next);
      }
    }

    /** `std::prev(lower_bound(addr))`, when there is one: the last block starting before `addr`. */
    method BlockBefore(addr: nat) returns (p: Option<nat>)
      ensures p == KeyBelow(freeBlocks, addr)
    {
      var below := set k | k in freeBlocks && k < addr;
      if below == {} {
        p := None;
      } else {
        GreatestExists(below);
        var prev :| prev in below && forall x :: x in below ==> x <= prev;
        p := Some(prev);
      }
    }

    /**
     Materializes the arena on the first call, asking the runtime for `peak`
     bytes (`fromRuntime` is the address the runtime hands back); every later
     call returns the same arena and requests nothing.
     */
    method GetPtr(fromRuntime: nat) returns (base: nat)
      requires Valid()
      modifies this
      ensures Valid() && used == old(used) && peak == old(peak) && freeBlocks == old(freeBlocks)
      ensures old(ptr).None? ==> ptr == Some(Arena(fromRuntime, old(peak)))
      ensures old(ptr).Some? ==> ptr == old(ptr)
      ensures ptr.Some? && base == ptr.value.base
    {
      if ptr.None? {
        ptr := Some(Arena(fromRuntime, peak));
      }
      base := ptr.value.base;
    }

    /**
     The corrected allocation: first fit with the corrected split, and, when
     no block fits, the arena is extended at its current end by raising
     `peak`.
     */
    method AllocOrExtend(size: nat) returns (addr: nat)
      requires Valid() && ptr.None? && size < SizeModulus
      modifies this
      ensures Valid() && ptr == old(ptr)
      ensures used == Wrap(old(used) + AlignedSize(size))
      ensures FirstFit(old(freeBlocks), AlignedSize(size)).None? ==>
        addr == old(peak) && freeBlocks == old(freeBlocks) && peak == Wrap(old(peak) + AlignedSize(size))
      ensures FirstFit(old(freeBlocks), AlignedSize(size)).Some? ==>
        && addr == FirstFit(old(freeBlocks), AlignedSize(size)).value
        && freeBlocks == CarveBlock(old(freeBlocks), addr, AlignedSize(size))
        && peak == (if used > old(peak) then used else old(peak))
    {
      var s := AlignedSize(size);
      var fit := FindFit(s);
      if fit.None? {
        addr := peak;
        peak := Wrap(peak + s);
        used := Wrap(used + s);
        return;
      }
      var start := fit.value;
      freeBlocks := CarveBlock(freeBlocks, start, s);
      used := Wrap(used + s);
      if used > peak {
        peak := used;
      }
      addr := start;
    }
  }

  /** Total aligned size of a list of requests. */
  function SumAligned(sizes: seq<nat>): nat
    requires forall i :: 0 <= i < |sizes| ==> sizes[i] < SizeModulus
  {
    if sizes == [] then 0
    else SumAligned(sizes[..|sizes| - 1]) + AlignedSize(sizes[|sizes| - 1])
  }

  lemma {:induction false} SumAlignedPrefix(sizes: seq<nat>, i: nat)
    requires forall k :: 0 <= k < |sizes| ==> sizes[k] < SizeModulus
    requires i <= |sizes|
    ensures SumAligned(sizes[..i]) <= SumAligned(sizes)
    decreases |sizes|
  {
    if i < |sizes| {
      var init := sizes[..|sizes| - 1];
      assert init[..i] == sizes[..i];
      SumAlignedPrefix(init, i);
    } else {
      assert sizes[..i] == sizes;
    }
  }

  /** A sum of aligned sizes is itself aligned. */
  lemma {:induction false} SumAlignedAligned(sizes: seq<nat>)
    requires forall k :: 0 <= k < |sizes| ==> sizes[k] < SizeModulus
    ensures SumAligned(sizes) % Alignment == 0
  {
    if sizes != [] {
      SumAlignedAligned(sizes[..|sizes| - 1]);
    }
  }

  /** The allocator is as constructed: nothing planned, nothing freed, no arena. */
  ghost predicate Untouched(a: Allocator)
    reads a
  {
    a.Valid() && a.ptr.None? && a.freeBlocks == map[] && a.used == 0 && a.peak == 0
  }

  /**
   `dataMalloc`'s planning loop as written, one `alloc` per request on an
   untouched allocator: its free list is empty, so no request ever fits,
   every offset is 0 and the allocator stays untouched (`peak` stays 0).
   */
  method PlanAsWritten(a: Allocator, sizes: seq<nat>) returns (offsets: seq<nat>)
    requires Untouched(a)
    requires forall i :: 0 <= i < |sizes| ==> sizes[i] < SizeModulus
    modifies a
    ensures Untouched(a)
    ensures |offsets| == |sizes| && forall i :: 0 <= i < |offsets| ==> offsets[i] == 0
  {
    offsets := [];
    for i := 0 to |sizes|
      invariant Untouched(a)
      invariant |offsets| == i && forall k :: 0 <= k < i ==> offsets[k] == 0
    {
      var off := a.Alloc(sizes[i]);
      offsets := offsets + [off];
    }
  }

  /**
   `offsets` places the first `|offsets|` requests of `sizes`: every offset is
   aligned, every range `[offsets[i], offsets[i] + aligned sizes[i])` ends by
   `top`, and the ranges follow one another without overlapping.
   */
  ghost predicate Layout(offsets: seq<nat>, sizes: seq<nat>, top: nat)
    requires forall i :: 0 <= i < |sizes| ==> sizes[i] < SizeModulus
  {
    && |offsets| <= |sizes|
    && (forall i :: 0 <= i < |offsets| ==> offsets[i] % Alignment == 0)
    && (forall i :: 0 <= i < |offsets| ==> offsets[i] + AlignedSize(sizes[i]) <= top)
    && (forall i, j :: 0 <= i < j < |offsets| ==> offsets[i] + AlignedSize(sizes[i]) <= offsets[j])
  }

  /** Placing the next request at an aligned `top` extends a layout. */
  lemma LayoutAppend(offsets: seq<nat>, sizes: seq<nat>, top: nat)
    requires forall i :: 0 <= i < |sizes| ==> sizes[i] < SizeModulus
    requires Layout(offsets, sizes, top) && |offsets| < |sizes| && top % Alignment == 0
    ensures Layout(offsets + [top], sizes, top + AlignedSize(sizes[|offsets|]))
  {
    var o := offsets + [top];
    var n := |offsets|;
    forall i | 0 <= i < |o| ensures o[i] + AlignedSize(sizes[i]) <= top + AlignedSize(sizes[n]) {
      if i < n {
        assert o[i] == offsets[i];
      }
    }
    forall i, j | 0 <= i < j < |o| ensures o[i] + AlignedSize(sizes[i]) <= o[j] {
      assert o[i] == offsets[i];
      if j < n {
        assert o[j] == offsets[j];
      }
    }
  }

  /** The running total grows by one aligned size per request and stays within the whole sum. */
  lemma SumStep(sizes: seq<nat>, i: nat)
    requires forall k :: 0 <= k < |sizes| ==> sizes[k] < SizeModulus
    requires i < |sizes|
    ensures SumAligned(sizes[..i]) + AlignedSize(sizes[i]) == SumAligned(sizes[..i + 1]) <= SumAligned(sizes)
    ensures SumAligned(sizes[..i]) % Alignment == 0
  {
    SumAlignedPrefix(sizes, i + 1);
    SumAlignedAligned(sizes[..i]);
    assert sizes[..i + 1][..i] == sizes[..i];
  }

  /**
   Two requests of at least one byte each cannot both be placed at offset
   0: the all-zero plan is no layout, whatever the arena's size.
   */
  lemma ZeroOffsetsCollide(sizes: seq<nat>, offsets: seq<nat>, top: nat)
    requires forall i :: 0 <= i < |sizes| ==> sizes[i] < SizeModulus
    requires |sizes| >= 2 && 1 <= sizes[0] <= SizeModulus - Alignment
    requires |offsets| == |sizes| && forall i :: 0 <= i < |offsets| ==> offsets[i] == 0
    ensures !Layout(offsets, sizes, top)
  {
    AlignedSizeIsLeastMultiple(sizes[0]);
    assert offsets[0] + AlignedSize(sizes[0]) > offsets[1];
  }

  /**
   The end of the arena after the requests of `sizes` are appended one by
   one, each addition wrapping modulo 2^64 as `size_t` does; the plain sum
   when that fits.
   */
  function WrappedSum(sizes: seq<nat>): (r: nat)
    requires forall i :: 0 <= i < |sizes| ==> sizes[i] < SizeModulus
    ensures r < SizeModulus
    ensures SumAligned(sizes) < SizeModulus ==> r == SumAligned(sizes)
  {
    if sizes == [] then 0
    else Wrap(WrappedSum(sizes[..|sizes| - 1]) + AlignedSize(sizes[|sizes| - 1]))
  }

  /** Where the corrected allocation places request `i`: after all earlier ones. */
  function RunningOffsets(sizes: seq<nat>): (r: seq<nat>)
    requires forall i :: 0 <= i < |sizes| ==> sizes[i] < SizeModulus
    ensures |r| == |sizes|
  {
    seq(|sizes|, i requires 0 <= i < |sizes| => WrappedSum(sizes[..i]))
  }

  /** Below a total that fits, request `i`'s running offset is the plain sum before it. */
  lemma RunningOffsetAt(sizes: seq<nat>, i: nat)
    requires forall k :: 0 <= k < |sizes| ==> sizes[k] < SizeModulus
    requires SumAligned(sizes) < SizeModulus && i < |sizes|
    ensures RunningOffsets(sizes)[i] == SumAligned(sizes[..i])
    ensures RunningOffsets(sizes)[i] + AlignedSize(sizes[i]) == SumAligned(sizes[..i + 1]) <= SumAligned(sizes)
  {
    SumStep(sizes, i);
  }

  /**
   When the total fits in a `size_t`, the running offsets are a layout:
   aligned, pairwise disjoint and below the total.
   */
  lemma RunningOffsetsLayout(sizes: seq<nat>)
    requires forall i :: 0 <= i < |sizes| ==> sizes[i] < SizeModulus
    requires SumAligned(sizes) < SizeModulus
    ensures Layout(RunningOffsets(sizes), sizes, SumAligned(sizes))
  {
    var r := RunningOffsets(sizes);
    forall i | 0 <= i < |sizes| ensures r[i] % Alignment == 0 && r[i] + AlignedSize(sizes[i]) <= SumAligned(sizes) {
      RunningOffsetAt(sizes, i);
      SumStep(sizes, i);
    }
    forall i, j | 0 <= i < j < |sizes| ensures r[i] + AlignedSize(sizes[i]) <= r[j] {
      RunningOffsetsOrdered(sizes, i, j);
    }
  }

  /** An earlier request ends before a later one starts. */
  lemma RunningOffsetsOrdered(sizes: seq<nat>, i: nat, j: nat)
    requires forall k :: 0 <= k < |sizes| ==> sizes[k] < SizeModulus
    requires SumAligned(sizes) < SizeModulus && i < j < |sizes|
    ensures RunningOffsets(sizes)[i] + AlignedSize(sizes[i]) <= RunningOffsets(sizes)[j]
  {
    RunningOffsetAt(sizes, i);
    RunningOffsetAt(sizes, j);
    assert sizes[..j][..i + 1] == sizes[..i + 1];
    SumAlignedPrefix(sizes[..j], i + 1);
  }

  /**
   `dataMalloc`'s planning loop with the corrected allocation on an
   untouched allocator: the free list stays empty, so each request is
   placed at the current end, which then moves past it.
   */
  method PlanDisjoint(a: Allocator, sizes: seq<nat>) returns (offsets: seq<nat>)
    requires Untouched(a)
    requires forall i :: 0 <= i < |sizes| ==> sizes[i] < SizeModulus
    modifies a
    ensures a.Valid() && a.ptr.None? && a.freeBlocks == map[]
    ensures offsets == RunningOffsets(sizes)
    ensures a.peak == WrappedSum(sizes) && a.used == a.peak
  {
    offsets := [];
    for i := 0 to |sizes|
      invariant a.Valid() && a.ptr.None? && a.freeBlocks == map[]
      invariant a.peak == WrappedSum(sizes[..i]) && a.used == a.peak
      invariant offsets == RunningOffsets(sizes)[..i]
    {
      PlanStep(sizes, i);
      assert FirstFit(a.freeBlocks, AlignedSize(sizes[i])) == None;
      ghost var top := a.peak;
      var off := a.AllocOrExtend(sizes[i]);
      assert off == top && a.peak == Wrap(top + AlignedSize(sizes[i]));
      assert a.peak == WrappedSum(sizes[..i + 1]);
      offsets := offsets + [off];
    }
    assert sizes[..|sizes|] == sizes;
  }

  /** Placing request `i` at the wrapped end of the earlier ones extends the running offsets and moves the end past it. */
  lemma PlanStep(sizes: seq<nat>, i: nat)
    requires forall k :: 0 <= k < |sizes| ==> sizes[k] < SizeModulus
    requires i < |sizes|
    ensures RunningOffsets(sizes)[..i + 1] == RunningOffsets(sizes)[..i] + [WrappedSum(sizes[..i])]
    ensures WrappedSum(sizes[..i + 1]) == Wrap(WrappedSum(sizes[..i]) + AlignedSize(sizes[i]))
  {
    assert sizes[..i + 1][..i] == sizes[..i];
  }
}
