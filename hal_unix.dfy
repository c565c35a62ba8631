/**
 * The Unix hardware-abstraction layer's emulated physical memory:
 * a flat byte store of PMEM_SIZE bytes and a FIFO free list of page frames.
 * The host file, `mmap` and the lock around the free list are not modelled;
 * the allocator is one sequential object and memory is one array.
 */
module HalUnix {
  import opened Wrappers
  import opened ByteSeq

  /** Page size from `kernel_hal::defs` (x86-64). */
  const PAGE_SIZE: nat := 4096
  /** Size of the emulated physical memory: 1 GiB. */
  const PMEM_SIZE: nat := 0x4000_0000
  /** Host virtual address at which physical address 0 is mapped. */
  const PMEM_BASE: nat := 0x8_0000_0000

  /** Number of frames that can ever be handed out (all pages but the zero page). */
  const FRAME_COUNT: nat := PMEM_SIZE / PAGE_SIZE - 1

  /** An address the allocator may hand out: page-aligned, inside memory, not the zero page. */
  predicate IsPageAddr(p: nat)
  {
    0 < p < PMEM_SIZE && p % PAGE_SIZE == 0
  }

  ghost function PageSet(): set<nat>
  {
    set p: nat | p < PMEM_SIZE && IsPageAddr(p)
  }

  /** `(PAGE_SIZE..PMEM_SIZE).step_by(PAGE_SIZE)`, the free list's initial contents. */
  function InitialFreeList(): seq<nat>
  {
    seq(FRAME_COUNT, i => (i + 1) * PAGE_SIZE)
  }

  ghost function Elems(s: seq<nat>): set<nat>
  {
    set x | x in s
  }

  predicate NoDup(s: seq<nat>)
  {
    forall i, j :: 0 <= i < j < |s| ==> s[i] != s[j]
  }

  /** The initial free list is every allocatable page, once each, in ascending order. */
  lemma InitialFreeListIsPageSet()
    ensures forall i, j :: 0 <= i < j < |InitialFreeList()| ==> InitialFreeList()[i] < InitialFreeList()[j]
    ensures NoDup(InitialFreeList())
    ensures Elems(InitialFreeList()) == PageSet()
    ensures 0 !in InitialFreeList()
  {
    var s := InitialFreeList();
    forall p | p in PageSet() ensures p in Elems(s) {
      var k := p / PAGE_SIZE - 1;
      assert 0 <= k < |s| && s[k] == p;
    }
    forall p | p in Elems(s) ensures p in PageSet() {
      var k :| 0 <= k < |s| && s[k] == p;
      assert IsPageAddr(p);
    }
  }

  /** Splitting the head off a duplicate-free sequence. */
  lemma ElemsTail(s: seq<nat>)
    requires NoDup(s) && s != []
    ensures NoDup(s[1..])
    ensures Elems(s) == Elems(s[1..]) + {s[0]}
    ensures s[0] !in Elems(s[1..])
  {
    var t := s[1..];
    forall x | x in Elems(s) ensures x in Elems(t) + {s[0]} {
      var k :| 0 <= k < |s| && s[k] == x;
      if k > 0 { assert t[k - 1] == x; }
    }
    forall k | 0 <= k < |t| ensures t[k] != s[0] {
      assert t[k] == s[k + 1];
    }
  }

  /** A duplicate-free sequence has as many distinct elements as entries. */
  lemma {:induction false} DistinctCard(s: seq<nat>)
    requires NoDup(s)
    ensures |Elems(s)| == |s|
  {
    if s != [] {
      ElemsTail(s);
      DistinctCard(s[1..]);
    }
  }

  /** There are exactly PMEM_SIZE / PAGE_SIZE - 1 allocatable pages. */
  lemma PageCount()
    ensures |PageSet()| == FRAME_COUNT
  {
    InitialFreeListIsPageSet();
    DistinctCard(InitialFreeList());
  }

  /** Two distinct allocatable pages do not overlap. */
  lemma DistinctPagesDisjoint(p: nat, q: nat)
    requires IsPageAddr(p) && IsPageAddr(q) && p != q
    ensures p + PAGE_SIZE <= q || q + PAGE_SIZE <= p
    ensures p + PAGE_SIZE <= PMEM_SIZE && q + PAGE_SIZE <= PMEM_SIZE
  {
    var a, b := p / PAGE_SIZE, q / PAGE_SIZE;
    assert p == a * PAGE_SIZE && q == b * PAGE_SIZE;
    assert a * PAGE_SIZE < PMEM_SIZE && b * PAGE_SIZE < PMEM_SIZE;
  }

  /** Builds the free list by stepping through `[PAGE_SIZE, PMEM_SIZE)` one page at a time. */
  method CollectPageAddrs() returns (q: seq<nat>)
    ensures q == InitialFreeList()
  {
    q := [];
    var p := PAGE_SIZE;
    while p < PMEM_SIZE
      invariant p == (|q| + 1) * PAGE_SIZE && p <= PMEM_SIZE
      invariant forall i :: 0 <= i < |q| ==> q[i] == (i + 1) * PAGE_SIZE
      decreases PMEM_SIZE - p
    {
      q := q + [p];
      p := p + PAGE_SIZE;
    }
  }

  /** The reserved zero page: page-aligned, and never an allocatable frame. */
  function ZeroFrameAddr(): (p: nat)
    ensures p % PAGE_SIZE == 0 && p < PMEM_SIZE
    ensures !IsPageAddr(p) && p !in PageSet()
  {
    0
  }

  /** Host virtual address of a physical address. */
  function PhysToVirt(paddr: nat): (vaddr: nat)
    ensures PMEM_BASE <= vaddr
    ensures paddr < PMEM_SIZE ==> vaddr < PMEM_BASE + PMEM_SIZE
  {
    PMEM_BASE + paddr
  }

  /** PhysToVirt is injective and keeps the order of addresses. */
  lemma PhysToVirtOrder(p: nat, q: nat)
    ensures PhysToVirt(p) == PhysToVirt(q) <==> p == q
    ensures PhysToVirt(p) < PhysToVirt(q) <==> p < q
    ensures PhysToVirt(p + q) == PhysToVirt(p) + q
  {
  }

  /**
   * The global `AVAILABLE_FRAMES` queue. `live` is the set of addresses
   * currently owned by a `PhysFrame`; Rust's move-only ownership is what
   * guarantees that only live addresses are ever dropped.
   */
  class FrameAllocator {
    var free: seq<nat>
    ghost var live: set<nat>

    /** The free list and the live frames partition the allocatable pages, without duplicates. */
    ghost predicate Valid()
      reads this
    {
      && NoDup(free)
      && Elems(free) !! live
      && Elems(free) + live == PageSet()
    }

    constructor ()
      ensures Valid()
      ensures free == InitialFreeList() && live == {}
    {
      var q := CollectPageAddrs();
      free := q;
      live := {};
      InitialFreeListIsPageSet();
    }

    /** `PhysFrame::alloc`: pop the front of the free list, or None when it is empty. */
    method Alloc() returns (frame: Option<nat>)
      requires Valid()
      modifies this
      ensures Valid()
      ensures frame.None? <==> old(free) == []
      ensures old(free) == [] ==> free == old(free) && live == old(live)
      ensures old(free) != [] ==>
        && frame == Some(old(free)[0])
        && free == old(free)[1..]
        && live == old(live) + {old(free)[0]}
      ensures frame.Some? ==> IsPageAddr(frame.value) && frame.value !in old(live)
    {
      if free == [] {
        frame := None;
      } else {
        var paddr := free[0];
        var rest := free[1..];
        ElemsTail(free);
        free := rest;
        live := live + {paddr};
        frame := Some(paddr);
      }
    }

    /** `Drop for PhysFrame`: push a live frame's address on the back of the free list. */
    method Dealloc(paddr: nat)
      requires Valid() && paddr in live
      modifies this
      ensures Valid()
      ensures free == old(free) + [paddr]
      ensures live == old(live) - {paddr}
    {
      assert paddr !in Elems(free);
      assert Elems(free + [paddr]) == Elems(free) + {paddr} by {
        forall x | x in Elems(free + [paddr]) ensures x in Elems(free) + {paddr} {
          var k :| 0 <= k < |free| + 1 && (free + [paddr])[k] == x;
          if k < |free| { assert free[k] == x; }
        }
      }
      free := free + [paddr];
      live := live - {paddr};
    }

    /**
     * Free frames plus live frames always number PMEM_SIZE / PAGE_SIZE - 1, so the
     * free list runs out exactly when that many frames are live.
     */
    lemma FrameCount()
      requires Valid()
      ensures |free| + |live| == FRAME_COUNT
      ensures free == [] <==> |live| == FRAME_COUNT
    {
      DistinctCard(free);
      PageCount();
    }

    /** Live frames are allocatable pages, pairwise non-overlapping. */
    lemma LiveFramesDisjoint(p: nat, q: nat)
      requires Valid() && p in live && q in live && p != q
      ensures IsPageAddr(p) && IsPageAddr(q)
      ensures p + PAGE_SIZE <= q || q + PAGE_SIZE <= p
    {
      DistinctPagesDisjoint(p, q);
    }
  }

  /** The emulated physical memory: byte `i` is physical address `i`. */
  class PhysMemory {
    var mem: array<bv8>

    ghost predicate Valid()
      reads this
    {
      mem.Length == PMEM_SIZE
    }

    /** A freshly sized memory file reads as zeros. */
    constructor ()
      ensures Valid() && fresh(mem)
      ensures mem[..] == Zeros(PMEM_SIZE)
    {
      mem := new bv8[PMEM_SIZE](_ => 0);
    }

    /** `pmem_read`: copy `buf.Length` bytes at `paddr` into `buf`. */
    method Read(paddr: nat, buf: array<bv8>)
      requires Valid() && buf != mem
      requires paddr + buf.Length <= PMEM_SIZE
      modifies buf
      ensures buf[..] == mem[paddr..paddr + buf.Length]
      ensures mem[..] == old(mem[..])
    {
      forall i | 0 <= i < buf.Length {
        buf[i] := mem[paddr + i];
      }
    }

    /** `pmem_write`: copy `buf` into memory at `paddr`. */
    method Write(paddr: nat, buf: seq<bv8>)
      requires Valid()
      requires paddr + |buf| <= PMEM_SIZE
      modifies mem
      ensures Valid()
      ensures mem[..] == Overwrite(old(mem[..]), paddr, buf)
    {
      forall i | paddr <= i < paddr + |buf| {
        mem[i] := buf[i - paddr];
      }
      OverwriteUnique(old(mem[..]), paddr, buf, mem[..]);
    }

    /** `pmem_zero`: set `[paddr, paddr + len)` to zero. */
    method Zero(paddr: nat, len: nat)
      requires Valid()
      requires paddr + len <= PMEM_SIZE
      modifies mem
      ensures Valid()
      ensures mem[..] == Overwrite(old(mem[..]), paddr, Zeros(len))
    {
      forall i | paddr <= i < paddr + len {
        mem[i] := 0;
      }
      OverwriteUnique(old(mem[..]), paddr, Zeros(len), mem[..]);
    }

    /** `frame_copy`: copy the page at `src` onto the page at `target`. */
    method FrameCopy(src: nat, target: nat)
      requires Valid()
      requires src + PAGE_SIZE <= PMEM_SIZE && target + PAGE_SIZE <= PMEM_SIZE
      requires src + PAGE_SIZE <= target || target + PAGE_SIZE <= src
      modifies mem
      ensures Valid()
      ensures mem[..] == Overwrite(old(mem[..]), target, old(mem[src..src + PAGE_SIZE]))
      ensures mem[src..src + PAGE_SIZE] == old(mem[src..src + PAGE_SIZE])
    {
      var page := mem[src..src + PAGE_SIZE];
      forall i | target <= i < target + PAGE_SIZE {
        mem[i] := page[i - target];
      }
      OverwriteUnique(old(mem[..]), target, page, mem[..]);
      assert forall i :: src <= i < src + PAGE_SIZE ==> mem[i] == old(mem[i]);
    }
  }

  /** Reading back what was written returns it; bytes outside the written range keep their value. */
  lemma WriteThenRead(m: seq<bv8>, p: nat, b: seq<bv8>, q: nat, n: nat)
    requires |m| == PMEM_SIZE && p + |b| <= PMEM_SIZE && q + n <= PMEM_SIZE
    ensures Overwrite(m, p, b)[p..p + |b|] == b
    ensures q + n <= p || p + |b| <= q ==> Overwrite(m, p, b)[q..q + n] == m[q..q + n]
  {
    if q + n <= p || p + |b| <= q {
      var w := Overwrite(m, p, b);
      assert forall i :: q <= i < q + n ==> w[i] == m[i];
    }
  }
}
