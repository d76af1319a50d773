/** The fixed-block allocator of DelegateMQ/extras/allocator/Allocator.cpp and
    DelegateMQ/extras/allocator/xallocator.cpp in heap-blocks mode: free lists threaded through the
    block headers, and the buckets over them. */
module XAllocator {
  import opened BlockSize

  type Byte = n: int | 0 <= n < 0x100
  type Count = n: int | 0 <= n < 0x1_0000_0000

  /** The first word of a block: the link of the free list, or the allocator of a block in use. */
  datatype Header = Link(next: Block?) | Owner(allocator: Allocator)

  class Block {
    const size: nat
    var header: Header
    var bytes: nat -> Byte         // what follows the header, size - BLOCK_HEADER_SIZE of them
    ghost const home: Allocator    // where it was created

    constructor (size: nat, ghost home: Allocator)
      requires size >= BLOCK_HEADER_SIZE
      ensures this.size == size && this.home == home
    {
      this.size, this.home, header := size, home, Link(null);
      bytes := *;
    }

    /** The bytes that a client may use. */
    function Capacity(): nat {
      if size >= BLOCK_HEADER_SIZE then size - BLOCK_HEADER_SIZE else 0
    }
  }

  ghost function At(list: seq<Block>, i: int): Block? {
    if 0 <= i < |list| then list[i] else null
  }

  /** Following the links visits exactly these blocks: the free list has no cycle. */
  ghost predicate Chained(head: Block?, list: seq<Block>)
    reads list`header
  {
    && head == At(list, 0)
    && (forall i, j | 0 <= i < j < |list| :: list[i] != list[j])
    && forall i | 0 <= i < |list| :: list[i].header == Link(At(list, i + 1))
  }

  function Plus(c: Count, n: int): Count { (c + n) % 0x1_0000_0000 }

  class Allocator {
    const blockSize: nat
    var head: Block?
    var blockCnt: Count
    var blocksInUse: Count
    var allocations: Count
    var deallocations: Count
    ghost var free: seq<Block>
    ghost var used: set<Block>
    ghost var mine: set<Block>     // all blocks made here

    /** The blocks made here are free or used and not both; a used block names this allocator; the
        counters, which wrap around, agree with the blocks. */
    ghost predicate Ok()
      reads this, mine`header
    {
      && blockSize >= BLOCK_HEADER_SIZE
      && Made(free, used, mine)
      && Chained(head, free)
      && Owned()
      && Counted(blockCnt, blocksInUse, allocations, deallocations, |free|, |used|)
    }

    ghost predicate Owned()
      reads this, mine`header
    {
      used <= mine && forall b | b in used :: b.header == Owner(this)
    }

    ghost predicate Made(free: seq<Block>, used: set<Block>, mine: set<Block>) {
      && (forall i | 0 <= i < |free| :: free[i] in mine && free[i] !in used)
      && (forall b | b in mine :: b.home == this && b.size == blockSize && (b in used || b in free))
    }

    lemma MadeFree(b: Block)
      requires Made(free, used, mine) && b in used && b in mine && forall i | 0 <= i < |free| :: free[i] != b
      ensures Made([b] + free, used - {b}, mine) && |used - {b}| == |used| - 1 && |[b] + free| == |free| + 1
    {
      assert forall x | x in free :: x in [b] + free;
    }

    constructor (blockSize: nat)
      requires blockSize >= BLOCK_HEADER_SIZE
      ensures Ok() && this.blockSize == blockSize && free == [] && used == {} && mine == {} && blocksInUse == 0
    {
      this.blockSize, head, free, used, mine := blockSize, null, [], {}, {};
      blockCnt, blocksInUse, allocations, deallocations := 0, 0, 0, 0;
    }

    method Push(b: Block)
      requires Chained(head, free) && b !in free
      modifies this`head, this`free, b`header
      ensures Chained(head, free) && free == [b] + old(free)
    {
      b.header := Link(head);
      head := b;
      free := [b] + free;
    }

    method Pop() returns (b: Block?)
      requires Chained(head, free)
      modifies this`head, this`free
      ensures Chained(head, free)
      ensures b == At(old(free), 0) && free == if old(free) == [] then [] else old(free)[1..]
    {
      b := head;
      if b != null {
        head := b.header.next;
        free := free[1..];
      }
    }

    method AccountAlloc(newBlock: bool)
      modifies this`blockCnt, this`blocksInUse, this`allocations
      ensures blockCnt == (if newBlock then Plus(old(blockCnt), 1) else old(blockCnt))
      ensures blocksInUse == Plus(old(blocksInUse), 1) && allocations == Plus(old(allocations), 1)
    {
      if newBlock {
        blockCnt := Plus(blockCnt, 1);
      }
      blocksInUse, allocations := Plus(blocksInUse, 1), Plus(allocations, 1);
    }

    method Deallocate(b: Block)
      requires Ok() && b in used
      modifies this`head, this`free, this`used, this`blocksInUse, this`deallocations, b`header
      ensures Ok() && free == [b] + old(free) && used == old(used) - {b} && mine == old(mine)
    {
      hide Counted, Chained;
      CountFree(blockCnt, blocksInUse, allocations, deallocations, |free|, |used|);
      MadeFree(b);
      hide Made;
      Push(b);
      used := used - {b};
      blocksInUse, deallocations := Plus(blocksInUse, -1), Plus(deallocations, 1);
    }

    /** The part of xmalloc behind the choice of the bucket: a recycled block if there is one, otherwise
        one from the heap, unless that is exhausted; then the header is set. */
    method Obtain(exhausted: bool) returns (b: Block?)
      requires Ok()
      modifies this, mine`header
      ensures Ok()
      ensures old(free) != [] ==> b == old(free)[0] && free == old(free)[1..]
      ensures old(free) == [] ==> free == [] && (b == null <==> exhausted) && (b == null || fresh(b))
      ensures b == null ==> used == old(used)
      ensures b == null ==> mine == old(mine)
      ensures b != null ==> b !in old(used) && used == old(used) + {b} && mine == old(mine) + {b}
      ensures b != null ==> b.home == this && b.size == blockSize && (b in old(mine) || fresh(b))
    {
      First();
      if head != null {
        b := Recycle();
      } else {
        b := Grow(exhausted);
      }
    }

    method Recycle() returns (b: Block)
      requires Ok() && free != []
      modifies this, mine`header
      ensures Ok() && b == old(free)[0] && free == old(free)[1..]
      ensures b !in old(used) && used == old(used) + {b} && mine == old(mine) + {b}
      ensures b.home == this && b.size == blockSize
    {
      CountAlloc(blockCnt, blocksInUse, allocations, deallocations, |free|, |used|, false);
      MadeUsed();
      hide Counted, Made, Chained, Owned;
      b := Pop();
      AccountAlloc(false);
      SetOwner(b);
    }

    method Grow(exhausted: bool) returns (b: Block?)
      requires Ok() && free == []
      modifies this
      ensures Ok() && free == [] && (b == null <==> exhausted) && (b == null || fresh(b))
      ensures b == null ==> used == old(used)
      ensures b == null ==> mine == old(mine)
      ensures b != null ==> used == old(used) + {b} && mine == old(mine) + {b} && b.home == this && b.size == blockSize
    {
      if exhausted {
        return null;
      }
      CountAlloc(blockCnt, blocksInUse, allocations, deallocations, |free|, |used|, true);
      hide Counted, Chained, Owned;
      b := new Block(blockSize, this);
      MadeNew(b);
      hide Made;
      AccountAlloc(true);
      mine := mine + {b};
      SetOwner(b);
    }

    /** set_block_allocator. */
    method SetOwner(b: Block)
      requires b !in used && b in mine && Chained(head, free) && b !in free && Owned()
      modifies this`used, b`header
      ensures Chained(head, free) && used == old(used) + {b} && Owned()
    {
      b.header := Owner(this);
      used := used + {b};
    }

    lemma First()
      requires Chained(head, free)
      ensures head == At(free, 0)
    {}

    lemma MadeNew(b: Block)
      requires Made(free, used, mine) && b !in mine && b.home == this && b.size == blockSize
      requires used <= mine
      ensures Made(free, used + {b}, mine + {b}) && |used + {b}| == |used| + 1 && b !in free && b !in used
    {}

    lemma MadeUsed()
      requires Made(free, used, mine) && free != [] && forall i, j | 0 <= i < j < |free| :: free[i] != free[j]
      ensures Made(free[1..], used + {free[0]}, mine) && |used + {free[0]}| == |used| + 1
      ensures free[0] !in used && free[0] !in free[1..] && free[0] in mine && mine + {free[0]} == mine
      ensures free[0].home == this && free[0].size == blockSize
    {
      assert forall x | x in free :: x == free[0] || x in free[1..];
    }
  }

  /** Modulo 2^32: blocks made = free + used; in use = used = allocations - deallocations. */
  predicate Counted(blockCnt: Count, blocksInUse: Count, allocations: Count, deallocations: Count,
                    free: nat, used: nat) {
    && blockCnt == (free + used) % 0x1_0000_0000
    && blocksInUse == used % 0x1_0000_0000
    && blocksInUse == (allocations - deallocations) % 0x1_0000_0000
  }

  lemma PlusMod(x: int, n: int)
    ensures (x % 0x1_0000_0000 + n) % 0x1_0000_0000 == (x + n) % 0x1_0000_0000
  {}

  lemma CountFree(blockCnt: Count, blocksInUse: Count, allocations: Count, deallocations: Count, free: nat, used: nat)
    requires Counted(blockCnt, blocksInUse, allocations, deallocations, free, used) && used > 0
    ensures Counted(blockCnt, Plus(blocksInUse, -1), allocations, Plus(deallocations, 1), free + 1, used - 1)
  {
    PlusMod(used, -1);
    PlusMod(allocations - deallocations, -1);
    PlusMod(deallocations + 1, 0);
    Difference(allocations, deallocations + 1);
  }

  lemma Difference(a: int, d: int)
    ensures (a - d % 0x1_0000_0000) % 0x1_0000_0000 == (a - d) % 0x1_0000_0000
    ensures (a % 0x1_0000_0000 - d) % 0x1_0000_0000 == (a - d) % 0x1_0000_0000
  {}

  lemma CountAlloc(blockCnt: Count, blocksInUse: Count, allocations: Count, deallocations: Count, free: nat, used: nat,
                   newBlock: bool)
    requires Counted(blockCnt, blocksInUse, allocations, deallocations, free, used) && (!newBlock ==> free > 0)
    ensures Counted(if newBlock then Plus(blockCnt, 1) else blockCnt, Plus(blocksInUse, 1), Plus(allocations, 1),
                    deallocations, if newBlock then free else free - 1, used + 1)
  {
    PlusMod(used, 1);
    PlusMod(free + used, 1);
    PlusMod(allocations - deallocations, 1);
    Difference(allocations + 1, deallocations);
  }

  /** Every block ever created belongs to the allocator of a bucket. */
  ghost predicate Covered(table: seq<Allocator>, blocks: set<Block>)
    reads table`mine
  {
    forall b | b in blocks :: b.home in table && b in b.home.mine
  }

  ghost predicate AllOk(table: seq<Allocator>, blocks: set<Block>)
    reads table, blocks`header
  {
    forall i | 0 <= i < |table| :: table[i].mine <= blocks && table[i].Ok()
  }

  /** A block belongs to the allocator that made it and to no other. */
  lemma Apart(table: seq<Allocator>, blocks: set<Block>, a: Allocator)
    requires AllOk(table, blocks) && a in table
    ensures forall i | 0 <= i < |table| && table[i] != a :: table[i].mine !! a.mine
  {}

  lemma MineInside(table: seq<Allocator>, blocks: set<Block>)
    requires AllOk(table, blocks)
    ensures forall a | a in table :: a.mine <= blocks
  {}

  lemma NewBucket(table: seq<Allocator>, blocks: set<Block>, a: Allocator)
    requires AllOk(table, blocks) && Covered(table, blocks) && a.Ok() && a.mine == {}
    ensures AllOk(table + [a], blocks) && Covered(table + [a], blocks)
  {
    forall b | b in blocks
      ensures b.home in table + [a] && b in b.home.mine
    {
      assert b.home in table;
    }
  }

  // ---------- The buckets ----------

  class XAllocator {
    const slots: array<Allocator?>
    ghost var table: seq<Allocator>
    ghost var blocks: set<Block>       // ever created

    /** The occupied slots come first, one for each block size. */
    ghost predicate Slots()
      reads this`table, slots
    {
      && |table| <= slots.Length
      && (forall i | 0 <= i < |table| :: slots[i] == table[i])
      && (forall i | |table| <= i < slots.Length :: slots[i] == null)
      && forall i, j | 0 <= i < j < |table| :: table[i].blockSize != table[j].blockSize
    }

    ghost predicate Valid()
      reads this, slots, table, blocks
    {
      && Slots() && Covered(table, blocks) && AllOk(table, blocks)
    }

    ghost predicate HasBucket(blockSize: nat)
      reads this`table
    {
      exists a :: a in table && a.blockSize == blockSize
    }

    /** Some bucket of this size has a block to recycle. */
    ghost predicate HasFree(blockSize: nat)
      reads this`table, table`free
    {
      exists a :: a in table && a.blockSize == blockSize && a.free != []
    }

    lemma OneBucket(a: Allocator, b: Allocator)
      requires Slots() && a in table && b in table && a.blockSize == b.blockSize
      ensures a == b
    {}

    constructor (maxAllocators: nat)
      ensures Valid() && table == [] && blocks == {} && slots.Length == maxAllocators
    {
      slots := new Allocator?[maxAllocators](_ => null);
      table, blocks := [], {};
    }

    method FindAllocator(size: nat) returns (a: Allocator?)
      requires Slots()
      ensures a != null ==> a in table && a.blockSize == size
      ensures a == null ==> forall i | 0 <= i < |table| :: table[i].blockSize != size
    {
      var i := 0;
      while i < slots.Length
        invariant 0 <= i <= |table|
        invariant forall j | 0 <= j < i :: table[j].blockSize != size
      {
        if slots[i] == null {
          break;
        }
        if slots[i].blockSize == size {
          return slots[i];
        }
        i := i + 1;
      }
      return null;
    }

    lemma TableFits()
      requires Slots()
      ensures |table| <= slots.Length
    {}

    method InsertAllocator(a: Allocator) returns (inserted: bool)
      requires Slots() && forall i | 0 <= i < |table| :: table[i].blockSize != a.blockSize
      modifies slots, this`table
      ensures Slots() && (inserted <==> |old(table)| < slots.Length)
      ensures table == if inserted then old(table) + [a] else old(table)
    {
      var i := 0;
      while i < slots.Length
        invariant 0 <= i <= |table| && Slots() && table == old(table)
      {
        if slots[i] == null {
          slots[i] := a;
          table := table + [a];
          return true;
        }
        i := i + 1;
      }
      return false;
    }

    /** The bucket for a request; none is left only when all slots hold other sizes. */
    method GetAllocator(size: Size) returns (a: Allocator?)
      requires Valid() && size + BLOCK_HEADER_SIZE <= HALF
      modifies slots, this`table
      ensures Valid() && old(table) <= table && forall b | b in table :: b in old(table) || fresh(b)
      ensures a != null ==> a in table && a.blockSize == SizeOfBlock(size)
      ensures a != null ==> (a in old(table) || (fresh(a) && a.free == [])) && a.mine <= blocks
      ensures a == null <==> !old(HasBucket(SizeOfBlock(size))) && |old(table)| == slots.Length
      ensures a == null ==> table == old(table)
    {
      TableFits();
      var blockSize := BlockSizeFor(size);
      HoldsRequestIff(size);
      MineInside(table, blocks);
      hide SizeOfBlock, Covered, AllOk, Slots;
      a := FindAllocator(blockSize);
      assert a == null <==> !HasBucket(blockSize);
      if a == null {
        a := AddAllocator(blockSize);
      }
    }

    method AddAllocator(blockSize: nat) returns (a: Allocator?)
      requires Valid() && blockSize >= BLOCK_HEADER_SIZE
      requires forall i | 0 <= i < |table| :: table[i].blockSize != blockSize
      modifies slots, this`table
      ensures Valid() && (a != null <==> |old(table)| < slots.Length)
      ensures a != null ==> fresh(a) && a.mine == {} && a.free == [] && a.blockSize == blockSize
      ensures a != null ==> table == old(table) + [a]
      ensures a == null ==> table == old(table)
    {
      hide Covered, AllOk, SizeOfBlock, Slots;
      a := new Allocator(blockSize);
      NewBucket(table, blocks, a);
      var inserted := InsertAllocator(a);
      if !inserted {
        a := null;
      }
    }

    /** The used blocks of all buckets. */
    ghost function LiveBlocks(): (live: set<Block>)
      reads this`table, this`blocks, table`used, table`mine
      requires Covered(table, blocks)
      ensures live <= blocks && forall b | b in blocks :: b in live <==> b in b.home.used
    {
      set b | b in blocks && b in b.home.used
    }

    /** Only the chosen allocator and its own blocks change. */
    method ObtainAt(a: Allocator, exhausted: bool) returns (b: Block?)
      requires AllOk(table, blocks) && a in table
      modifies this`blocks, a, a.mine`header
      ensures AllOk(table, blocks) && blocks == old(blocks) + (if b == null then {} else {b})
      ensures b == null ==> a.used == old(a.used) && a.mine == old(a.mine)
      ensures b != null ==> b !in old(a.used) && a.used == old(a.used) + {b} && a.mine == old(a.mine) + {b}
      ensures b != null ==> b.home == a && b.size == a.blockSize && (b in old(blocks) || fresh(b))
      ensures old(a.free) != [] ==> b == old(a.free)[0]
      ensures old(a.free) == [] ==> (b == null <==> exhausted)
    {
      Apart(table, blocks, a);
      hide Allocator.Ok;
      b := a.Obtain(exhausted);
      if b != null {
        blocks := blocks + {b};
      }
      forall i | 0 <= i < |table|
        ensures table[i].mine <= blocks && table[i].Ok()
      {
        if table[i] != a {
          assert old(table[i].mine <= blocks && table[i].Ok());
        }
      }
    }

    method ObtainFrom(a: Allocator, exhausted: bool) returns (b: Block?)
      requires Covered(table, blocks) && AllOk(table, blocks) && a in table
      modifies this`blocks, a, a.mine`header
      ensures Covered(table, blocks) && AllOk(table, blocks)
      ensures b == null ==> blocks == old(blocks) && LiveBlocks() == old(LiveBlocks())
      ensures b != null ==> b.home == a && b.size == a.blockSize && b !in old(LiveBlocks())
      ensures old(a.free) != [] ==> b == old(a.free)[0]
      ensures old(a.free) == [] ==> (b == null <==> exhausted)
      ensures fresh(blocks - old(blocks))
      ensures b != null ==> blocks == old(blocks) + {b} && LiveBlocks() == old(LiveBlocks()) + {b}
    {
      hide AllOk;
      ghost var before := blocks;
      b := ObtainAt(a, exhausted);
      forall x | x in before
        ensures x in x.home.used <==> x in old(x.home.used) || x == b
        ensures x.home in table && x in x.home.mine
      {
        assert x.home in table;
      }
    }

    /** Fails its assertion exactly if a new bucket is needed and there is no slot for it; reuses a free
        block of the bucket if there is one, and otherwise makes one unless the heap is exhausted. */
    method Malloc(size: Size, exhausted: bool) returns (p: Block?, fault: bool)
      requires Valid() && size + BLOCK_HEADER_SIZE <= HALF
      modifies this`table, this`blocks, slots, table, blocks`header
      ensures Valid() && blocks >= old(blocks) && fresh(blocks - old(blocks))
      ensures forall a | a in table :: a in old(table) || fresh(a)
      ensures p == null ==> LiveBlocks() == old(LiveBlocks())
      ensures p != null ==> p !in old(LiveBlocks()) && LiveBlocks() == old(LiveBlocks()) + {p}
      ensures p != null ==> p in blocks && p.size == SizeOfBlock(size) && p.Capacity() >= size
      ensures fault <==> !old(HasBucket(SizeOfBlock(size))) && |old(table)| == slots.Length
      ensures fault ==> p == null
      ensures forall a | a in old(table) && a.blockSize == SizeOfBlock(size) && old(a.free) != [] :: p == old(a.free)[0]
      ensures p == null <==> fault || (exhausted && !old(HasFree(SizeOfBlock(size))))
    {
      hide Covered, AllOk, SizeOfBlock, Slots;
      HoldsRequestIff(size);
      var a := GetAllocator(size);
      if a == null {
        return null, true;
      }
      fault := false;
      forall o | o in old(table) && o.blockSize == a.blockSize ensures o == a {
        OneBucket(o, a);
      }
      p := ObtainFrom(a, exhausted);
    }

    /** The header of a live block leads to the allocator that made it. */
    lemma HeaderOf(b: Block)
      requires Valid() && b in LiveBlocks()
      ensures b.header == Owner(b.home) && b.home in table && b in b.home.mine
              && b.size == b.home.blockSize >= BLOCK_HEADER_SIZE
    {
      assert b.home in table;
    }

    method ReleaseTo(a: Allocator, b: Block)
      requires Covered(table, blocks) && AllOk(table, blocks) && a in table && b in a.used && b in a.mine && b.home == a
      modifies a, b`header
      ensures Covered(table, blocks) && AllOk(table, blocks) && LiveBlocks() == old(LiveBlocks()) - {b}
    {
      Apart(table, blocks, a);
      hide Allocator.Ok;
      a.Deallocate(b);
      forall i | 0 <= i < |table|
        ensures table[i].mine <= blocks && table[i].Ok()
      {
        if table[i] != a {
          assert old(table[i].mine <= blocks && table[i].Ok());
        }
      }
      forall x | x in blocks
        ensures x in x.home.used <==> x in old(x.home.used) && x != b
        ensures x.home in table && x in x.home.mine
      {
        assert x.home in table;
      }
    }

    method Free(p: Block?)
      requires Valid() && (p != null ==> p in LiveBlocks())
      modifies if p == null then {} else {p.home, p}
      ensures Valid() && LiveBlocks() == old(LiveBlocks()) - {p}
      ensures p != null ==> p.bytes == old(p.bytes)
    {
      if p == null {
        return;
      }
      HeaderOf(p);
      hide Covered, AllOk, Slots;
      ReleaseTo(p.header.allocator, p);
    }

    /** memcpy of the first n bytes, which both blocks must hold. */
    method CopyBytes(to: Block, from: Block, n: nat)
      requires n <= to.Capacity() && n <= from.Capacity()
      modifies to`bytes
      ensures forall i: nat :: to.bytes(i) == if i < n then old(from.bytes)(i) else old(to.bytes)(i)
    {
      var source, target := from.bytes, to.bytes;
      to.bytes := (i: nat) => if i < n then source(i) else target(i);
    }

    /** The first bytes of the old block, as many as fit, are in the new one; every other live block keeps
        its contents, and if there is no new block the old one is still there. */
    method Realloc(oldMem: Block?, size: Size, exhausted: bool) returns (p: Block?, fault: bool)
      requires Valid() && (oldMem != null ==> oldMem in LiveBlocks()) && size + BLOCK_HEADER_SIZE <= HALF
      modifies this`table, this`blocks, slots, table, blocks
      ensures Valid()
      ensures oldMem != null && size == 0 ==> p == null && LiveBlocks() == old(LiveBlocks()) - {oldMem}
      ensures p == null && (oldMem == null || size > 0) ==> LiveBlocks() == old(LiveBlocks())
      ensures p != null ==> p !in old(LiveBlocks()) && p.Capacity() >= size
      ensures p != null ==> LiveBlocks() == old(LiveBlocks()) - {oldMem} + {p}
      ensures fault <==>
                (oldMem == null || size > 0) && !old(HasBucket(SizeOfBlock(size))) && |old(table)| == slots.Length
      ensures fault ==> p == null
      ensures oldMem == null || size > 0 ==>
                forall a | a in old(table) && a.blockSize == SizeOfBlock(size) && old(a.free) != [] ::
                  p == old(a.free)[0]
      ensures p != null && oldMem != null ==>
                forall i: nat | i < oldMem.Capacity() && i < size :: p.bytes(i) == old(oldMem.bytes)(i)
      ensures forall b | b in old(LiveBlocks()) :: b.bytes == old(b.bytes)
      ensures p != null && p in old(blocks) ==>
                forall i: nat | oldMem == null || i >= oldMem.Capacity() || i >= size :: p.bytes(i) == old(p.bytes)(i)
      ensures oldMem == null || size > 0 ==>
                (p == null <==> fault || (exhausted && !old(HasFree(SizeOfBlock(size)))))
    {
      hide Covered, AllOk, Slots, SizeOfBlock, HasBucket, HasFree;
      if oldMem == null {
        p, fault := Malloc(size, exhausted);
        return;
      }
      if size == 0 {
        HeaderOf(oldMem);
        Free(oldMem);
        return null, false;
      }
      p, fault := Malloc(size, exhausted);
      if p != null {
        HeaderOf(oldMem);
        var oldSize := oldMem.header.allocator.blockSize - BLOCK_HEADER_SIZE;
        CopyBytes(p, oldMem, if oldSize < size then oldSize else size);
        Free(oldMem);
      }
    }
  }
}
