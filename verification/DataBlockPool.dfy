/** The block pool's memory: blocks and list nodes as heap objects, and the layout of the
    buffers they are carved from.  The calls are complete ones; PoolProtocol interleaves
    their critical sections. */
module DataBlockPools {
  import opened Counting
  import Rings

  // ---------------------------------------------------------------------------------------
  // Carving
  // ---------------------------------------------------------------------------------------

  /** A stretch of bytes within one allocation. */
  datatype Extent = Extent(start: nat, size: nat) {
    function End(): nat {
      start + size
    }

    predicate Apart(other: Extent) {
      End() <= other.start || other.End() <= start
    }
  }

  /** What AppendCache lays out for one block. */
  datatype Slot = Slot(node: Extent, header: Extent, payload: Extent)

  /** sizeof of BlockCache, BlockQueue and DataBlock. */
  datatype Sizes = Sizes(cache: nat, queue: nat, block: nat)

  /** Where items lie, one after the other. */
  lemma {:induction false} Stride(size: nat, i: nat, j: nat)
    requires i < j
    ensures Span(size, i) + size <= Span(size, j)
    decreases j
  {
    if i < j - 1 {
      Stride(size, i, j - 1);
    }
  }

  /** What NewInstance and Alloc ask malloc for, counted from the BlockCache. */
  function CacheBytes(z: Sizes, n: nat, capacity: nat): nat {
    z.cache + Span(z.queue, n) + Span(z.block + capacity, n)
  }

  lemma CacheBytesAsked(z: Sizes, n: nat, capacity: nat)
    ensures CacheBytes(z, n, capacity) == z.cache + z.queue * n + (z.block + capacity) * n
  {
    SpanIsProduct(z.queue, n);
    SpanIsProduct(z.block + capacity, n);
  }

  /** The slot whose node lies `q` bytes into the nodes and whose header lies `b` bytes into the
      headers and payloads; the nodes take `nodes` bytes together. */
  function Lay(z: Sizes, nodes: nat, capacity: nat, q: nat, b: nat): Slot {
    Slot(Extent(z.cache + q, z.queue), Extent(z.cache + nodes + b, z.block), Extent(z.cache + nodes + b + z.block, capacity))
  }

  function SlotAt(z: Sizes, n: nat, capacity: nat, i: nat): Slot {
    Lay(z, Span(z.queue, n), capacity, Span(z.queue, i), Span(z.block + capacity, i))
  }

  /** No part of one slot meets a part of the other, the nodes of which lie in front. */
  predicate SlotsMeetNot(s: Slot, t: Slot) {
    && s.node.Apart(t.node) && s.node.Apart(t.header) && s.node.Apart(t.payload)
    && s.header.Apart(t.node) && s.header.Apart(t.header) && s.header.Apart(t.payload)
    && s.payload.Apart(t.node) && s.payload.Apart(t.header) && s.payload.Apart(t.payload)
  }

  lemma LaidApart(z: Sizes, nodes: nat, capacity: nat, q: nat, b: nat, q': nat, b': nat)
    requires q + z.queue <= q' && q' + z.queue <= nodes && b + z.block + capacity <= b'
    ensures SlotsMeetNot(Lay(z, nodes, capacity, q, b), Lay(z, nodes, capacity, q', b'))
    ensures SlotsMeetNot(Lay(z, nodes, capacity, q', b'), Lay(z, nodes, capacity, q, b))
  {
  }

  /** The parts of a slot are apart; all lie between the cache node and the end of the
      allocation, which the last payload reaches exactly. */
  lemma SlotInside(z: Sizes, n: nat, capacity: nat, i: nat)
    requires i < n
    ensures var s := SlotAt(z, n, capacity, i);
            && s.node.start >= z.cache && s.node.Apart(s.header) && s.node.Apart(s.payload) && s.header.Apart(s.payload)
            && s.payload.End() <= CacheBytes(z, n, capacity)
            && (i == n - 1 ==> s.payload.End() == CacheBytes(z, n, capacity))
  {
    Stride(z.queue, i, n);
    Stride(z.block + capacity, i, n);
  }

  /** The slots are pairwise apart. */
  lemma SlotsApart(z: Sizes, n: nat, capacity: nat, i: nat, j: nat)
    requires i < n && j < n && i != j
    ensures SlotsMeetNot(SlotAt(z, n, capacity, i), SlotAt(z, n, capacity, j))
  {
    if i < j {
      Between(z, n, capacity, i, j);
    } else {
      Between(z, n, capacity, j, i);
    }
  }

  lemma Between(z: Sizes, n: nat, capacity: nat, i: nat, j: nat)
    requires i < j < n
    ensures SlotsMeetNot(SlotAt(z, n, capacity, i), SlotAt(z, n, capacity, j))
    ensures SlotsMeetNot(SlotAt(z, n, capacity, j), SlotAt(z, n, capacity, i))
  {
    Stride(z.queue, i, j);
    Stride(z.queue, j, n);
    Stride(z.block + capacity, i, j);
    LaidApart(z, Span(z.queue, n), capacity, Span(z.queue, i), Span(z.block + capacity, i),
              Span(z.queue, j), Span(z.block + capacity, j));
  }

  /** AppendCache's walk over the buffer: it ends where the memory asked for ends. */
  method Carve(z: Sizes, n: nat, capacity: nat) returns (slots: seq<Slot>, buffer: nat)
    ensures |slots| == n
    ensures forall i :: 0 <= i < n ==> slots[i] == SlotAt(z, n, capacity, i)
    ensures forall i, j :: 0 <= i < j < n ==> SlotsMeetNot(slots[i], slots[j])
    ensures buffer == CacheBytes(z, n, capacity) == z.cache + z.queue * n + (z.block + capacity) * n
  {
    SpanIsProduct(z.queue, n);
    var queue := z.cache;
    buffer, slots := z.cache + z.queue * n, [];
    for i := 0 to n
      invariant |slots| == i && queue == z.cache + Span(z.queue, i)
      invariant buffer == z.cache + Span(z.queue, n) + Span(z.block + capacity, i)
      invariant forall k :: 0 <= k < i ==> slots[k] == SlotAt(z, n, capacity, k)
    {
      slots := slots + [Slot(Extent(queue, z.queue), Extent(buffer, z.block), Extent(buffer + z.block, capacity))];
      queue, buffer := queue + z.queue, buffer + z.block + capacity;
    }
    CacheBytesAsked(z, n, capacity);
    forall i, j | 0 <= i < j < n ensures SlotsMeetNot(slots[i], slots[j]) {
      Between(z, n, capacity, i, j);
    }
  }

  // ---------------------------------------------------------------------------------------
  // Blocks and the pool
  // ---------------------------------------------------------------------------------------

  class DataBlock {
    const capacity_: nat
    const pool_: DataBlockPool
    var size_: nat
    var reference_: nat

    constructor (capacity: nat, pool: DataBlockPool)
      ensures capacity_ == capacity && pool_ == pool && Ready()
    {
      capacity_, pool_ := capacity, pool;
      size_, reference_ := 0, 1;
    }

    /** As Alloc hands it out: empty, with one reference. */
    predicate Ready()
      reads this
    {
      size_ == 0 && reference_ == 1
    }

    /** set_size: refused beyond the capacity. */
    method SetSize(size: nat) returns (ok: bool)
      modifies this`size_
      ensures ok <==> size <= capacity_
      ensures size_ == if ok then size else old(size_)
    {
      ok := size <= capacity_;
      if ok {
        size_ := size;
      }
    }
  }

  class BlockQueue {
    var next: BlockQueue?
    var block: DataBlock?

    constructor (next: BlockQueue?, block: DataBlock?)
      ensures this.next == next && this.block == block
    {
      this.next, this.block := next, block;
    }
  }

  /** The node at the start of each allocation; AppendCache writes it once. */
  class BlockCache {
    const next: BlockCache?

    constructor (next: BlockCache?)
      ensures this.next == next
    {
      this.next := next;
    }
  }

  /** The allocations, the newest first; the oldest is the pool's own. */
  ghost predicate CacheChain(head: BlockCache?, caches: seq<BlockCache>) {
    && Rings.Distinct(caches)
    && (head == if caches == [] then null else caches[0])
    && (forall i :: 0 <= i < |caches| - 1 ==> caches[i].next == caches[i + 1])
    && (caches != [] ==> caches[|caches| - 1].next == null)
  }

  /** `nodes` is the list that starts at `head`. */
  ghost predicate Chain(head: BlockQueue?, nodes: seq<BlockQueue>)
    reads nodes
  {
    && (head == if nodes == [] then null else nodes[0])
    && (forall i :: 0 <= i < |nodes| - 1 ==> nodes[i].next == nodes[i + 1])
    && (nodes != [] ==> nodes[|nodes| - 1].next == null)
  }

  /** Taking the first node off a chain. */
  lemma ChainTail(head: BlockQueue?, nodes: seq<BlockQueue>)
    requires Chain(head, nodes) && nodes != []
    ensures Chain(nodes[0].next, nodes[1..])
  {
    if |nodes| > 1 {
      assert nodes[0].next == nodes[1];
    }
  }

  class DataBlockPool {
    const capacity_: nat
    const cacheBlocks_: nat
    var reference_: nat
    var queueHead_: BlockQueue?
    var queueFree_: BlockQueue?
    var cacheHead_: BlockCache?
    /** The two lists, the blocks on the first one, the blocks handed out, and the number of
        references held outside. */
    ghost var avail: seq<BlockQueue>
    ghost var spare: seq<BlockQueue>
    ghost var blocks: seq<DataBlock>
    ghost var out: set<DataBlock>
    ghost var holders: nat
    /** The allocations. */
    ghost var caches: seq<BlockCache>

    /** The two lists and what hangs on them. */
    ghost predicate Lists()
      reads this`queueHead_, this`queueFree_, this`avail, this`spare, this`blocks, avail, spare
    {
      && Chain(queueHead_, avail) && Chain(queueFree_, spare)
      && Rings.Distinct(avail) && Rings.Distinct(spare) && (forall n :: n in avail ==> n !in spare)
      && |blocks| == |avail|
      && (forall i :: 0 <= i < |avail| ==> avail[i].block == blocks[i])
      && (forall i :: 0 <= i < |spare| ==> spare[i].block == null)
    }

    /** Blocks on the list are ready to be handed out, and all blocks are this pool's. */
    ghost predicate Owned()
      reads this`blocks, this`out, blocks
    {
      && Rings.Distinct(blocks)
      && (forall b :: b in blocks ==> b.Ready() && b !in out && b.pool_ == this && b.capacity_ == capacity_)
      && (forall b :: b in out ==> b.pool_ == this && b.capacity_ == capacity_)
    }

    ghost predicate Sound()
      reads this`queueHead_, this`queueFree_, this`avail, this`spare, this`blocks, this`out, this`reference_, this`holders
      reads avail, spare, blocks
    {
      Lists() && Owned() && |spare| == |out| && reference_ == holders + |out|
    }

    ghost predicate Valid()
      reads this, avail, spare, blocks
    {
      && Sound() && CacheChain(cacheHead_, caches) && caches != []
      && Span(cacheBlocks_, |caches|) == |blocks| + |out|
    }

    constructor (capacity: nat, cacheBlocks: nat)
      requires capacity > 0 && cacheBlocks > 0
      ensures Valid() && fresh(avail) && fresh(blocks)
      ensures |avail| == cacheBlocks && out == {} && reference_ == holders == 1 && |caches| == 1
      ensures capacity_ == capacity && cacheBlocks_ == cacheBlocks
    {
      capacity_, cacheBlocks_ := capacity, cacheBlocks;
      reference_, queueHead_, queueFree_, cacheHead_ := 1, null, null, null;
      avail, spare, blocks, out, holders, caches := [], [], [], {}, 1, [];
      new;
      AppendCache();
    }

    /** A new node for a block, in front of the list. */
    method PushNode(block: DataBlock)
      requires Lists()
      modifies this`queueHead_, this`avail, this`blocks
      ensures Lists() && blocks == [block] + old(blocks)
      ensures |avail| == |old(avail)| + 1 && fresh(avail[0]) && avail[1..] == old(avail)
    {
      var node := new BlockQueue(queueHead_, block);
      queueHead_ := node;
      avail, blocks := [node] + avail, [block] + blocks;
    }

    /** One new block and its node. */
    method PushNew()
      requires Sound()
      modifies this`queueHead_, this`avail, this`blocks
      ensures Sound() && avail != [] && blocks != []
      ensures avail[1..] == old(avail) && blocks[1..] == old(blocks)
      ensures fresh(avail[0]) && fresh(blocks[0])
    {
      var block := new DataBlock(capacity_, this);
      PushNode(block);
    }

    /** The loop of AppendCache: cacheBlocks_ new blocks, each pushed in front of the list. */
    method AppendBlocks()
      requires Sound() && avail == []
      modifies this`queueHead_, this`avail, this`blocks
      ensures Sound() && |avail| == |blocks| == cacheBlocks_ && fresh(avail) && fresh(blocks)
    {
      for i := 0 to cacheBlocks_
        invariant Sound() && |avail| == |blocks| == i && fresh(avail) && fresh(blocks)
      {
        PushNew();
      }
    }

    /** AppendCache: new blocks, and the node of their allocation in front of the others.  Both
        callers have an empty list. */
    method AppendCache()
      requires Sound() && CacheChain(cacheHead_, caches) && Span(cacheBlocks_, |caches|) == |out|
      requires avail == []
      modifies this`queueHead_, this`avail, this`blocks, this`cacheHead_, this`caches
      ensures Valid() && |caches| == |old(caches)| + 1
      ensures |avail| == |blocks| == cacheBlocks_ && fresh(avail) && fresh(blocks)
    {
      AppendBlocks();
      PushCache();
    }

    method PushCache()
      requires CacheChain(cacheHead_, caches)
      modifies this`cacheHead_, this`caches
      ensures CacheChain(cacheHead_, caches) && |caches| == |old(caches)| + 1
    {
      var cache := new BlockCache(cacheHead_);
      cacheHead_, caches := cache, [cache] + caches;
    }

    /** The section of Alloc that takes the first block and keeps its node as a spare one. */
    method Take() returns (result: DataBlock)
      requires Lists() && avail != []
      modifies this`queueHead_, this`queueFree_, this`avail, this`spare, this`blocks, avail[0]
      ensures Lists() && result == old(blocks)[0] && blocks == old(blocks)[1..]
      ensures |spare| == |old(spare)| + 1
    {
      ChainTail(queueHead_, avail);
      var queue := queueHead_;
      queueHead_ := queue.next;
      result := queue.block;
      queue.block := null;
      queue.next := queueFree_;
      queueFree_ := queue;
      avail, spare, blocks := avail[1..], [queue] + spare, blocks[1..];
    }

    /** The section of Free that puts a block back on the first spare node, unchecked. */
    method Put(block: DataBlock)
      requires Lists() && spare != []
      modifies this`queueHead_, this`queueFree_, this`avail, this`spare, this`blocks, spare[0]
      ensures Lists() && blocks == [block] + old(blocks) && |spare| == |old(spare)| - 1
    {
      ChainTail(queueFree_, spare);
      var queue := queueFree_;
      queueFree_ := queue.next;
      queue.block := block;
      queue.next := queueHead_;
      queueHead_ := queue;
      avail, spare, blocks := [queue] + avail, spare[1..], [block] + blocks;
    }

    /** The first block leaves, and the pool is referenced for it. */
    method HandOut() returns (result: DataBlock)
      requires Sound() && avail != []
      modifies this`queueHead_, this`queueFree_, this`avail, this`spare, this`blocks, this`out, this`reference_, avail[0]
      ensures Sound()
      ensures result == old(blocks)[0] && blocks == old(blocks)[1..]
      ensures result !in old(out) && out == old(out) + {result} && result.Ready()
      ensures reference_ == old(reference_) + 1
    {
      result := Take();
      out := out + {result};
      reference_ := reference_ + 1;
    }

    /** Alloc from a list that is not empty: the most recently freed block. */
    method AllocFirst() returns (result: DataBlock)
      requires Valid() && avail != []
      modifies this`queueHead_, this`queueFree_, this`avail, this`spare, this`blocks, this`out, this`reference_, avail[0]
      ensures Valid()
      ensures result == old(blocks)[0] && blocks == old(blocks)[1..]
      ensures result !in old(out) && out == old(out) + {result} && result.Ready()
      ensures reference_ == old(reference_) + 1
    {
      result := HandOut();
    }

    /** Alloc: the most recently freed block, after growing an empty pool if memory allows. */
    method Alloc(memory: bool) returns (result: DataBlock?)
      requires Valid() && cacheBlocks_ > 0
      modifies this, avail
      ensures Valid() && holders == old(holders)
      ensures result == null <==> old(avail) == [] && !memory
      ensures result == null ==> out == old(out) && blocks == old(blocks) && reference_ == old(reference_)
      ensures result != null ==>
                && result !in old(out) && out == old(out) + {result} && result.Ready()
                && reference_ == old(reference_) + 1
      ensures old(avail) != [] ==>
                result == old(blocks)[0] && blocks == old(blocks)[1..] && caches == old(caches)
      ensures old(avail) == [] && memory ==>
                fresh(result) && fresh(blocks) && |blocks| == cacheBlocks_ - 1 && |caches| == |old(caches)| + 1
    {
      result := null;
      if queueHead_ == null {
        if memory {
          AppendCache();
        }
      }
      if queueHead_ != null {
        result := AllocFirst();
      }
    }

    /** The block returns, and its reference on the pool goes. */
    method TakeBack(block: DataBlock)
      requires Sound() && block in out && block.Ready()
      modifies this`queueHead_, this`queueFree_, this`avail, this`spare, this`blocks, this`out, this`reference_, spare
      ensures Sound()
      ensures out == old(out) - {block} && blocks == [block] + old(blocks)
      ensures reference_ == old(reference_) - 1
    {
      assert |out - {block}| == |out| - 1;
      Put(block);
      out := out - {block};
      reference_ := reference_ - 1;
    }

    /** Free: the conservation law provides the spare node; the block's reference on the pool may
        be the last. */
    method Free(block: DataBlock) returns (destroy: bool)
      requires Valid() && block in out && block.Ready()
      modifies this`queueHead_, this`queueFree_, this`avail, this`spare, this`blocks, this`out, this`reference_, spare
      ensures Valid()
      ensures out == old(out) - {block} && blocks == [block] + old(blocks)
      ensures reference_ == old(reference_) - 1 && (destroy <==> reference_ == 0)
    {
      TakeBack(block);
      destroy := reference_ < 1;
    }

    /** DataBlock's Release, with ObjectDestroy when the last reference goes. */
    method ReleaseBlock(block: DataBlock) returns (freed: bool, destroy: bool)
      requires Valid() && block in out && block.reference_ > 0
      modifies this`queueHead_, this`queueFree_, this`avail, this`spare, this`blocks, this`out, this`reference_
      modifies spare, block
      ensures Valid()
      ensures freed <==> old(block.reference_) == 1
      ensures freed ==> out == old(out) - {block} && blocks == [block] + old(blocks) && block.Ready()
      ensures !freed ==> out == old(out) && blocks == old(blocks) && block.reference_ == old(block.reference_) - 1
                         && block.size_ == old(block.size_)
      ensures destroy <==> reference_ == 0
    {
      assert block in out && |out| > 0;
      freed, destroy := false, false;
      block.reference_ := block.reference_ - 1;
      if block.reference_ < 1 {
        block.size_ := 0;
        block.reference_ := 1;
        destroy := Free(block);
        freed := true;
      }
    }

    /** AddRef and Release of the pool by those who hold it.  The pool is to be destroyed when
        nobody holds it and no block is out: here, or in the last Free. */
    method AddRef()
      requires Valid() && holders > 0
      modifies this`reference_, this`holders
      ensures Valid() && holders == old(holders) + 1 && reference_ == old(reference_) + 1
    {
      reference_, holders := reference_ + 1, holders + 1;
    }

    method Release() returns (destroy: bool)
      requires Valid() && holders > 0
      modifies this`reference_, this`holders
      ensures Valid() && holders == old(holders) - 1 && reference_ == old(reference_) - 1
      ensures destroy <==> reference_ == 0
      ensures destroy <==> holders == 0 && out == {}
    {
      reference_, holders := reference_ - 1, holders - 1;
      destroy := reference_ < 1;
    }

    /** One loop of the destructor: destroy the block of every node, unchecked. */
    method DestroyList(head: BlockQueue?, ghost nodes: seq<BlockQueue>) returns (destroyed: seq<DataBlock>)
      requires Chain(head, nodes) && forall n :: n in nodes ==> n.block != null
      ensures |destroyed| == |nodes| && forall i :: 0 <= i < |nodes| ==> destroyed[i] == nodes[i].block
    {
      destroyed := [];
      var queue := head;
      while queue != null
        invariant |destroyed| <= |nodes|
        invariant queue == if |destroyed| == |nodes| then null else nodes[|destroyed|]
        invariant forall i :: 0 <= i < |destroyed| ==> destroyed[i] == nodes[i].block
        decreases |nodes| - |destroyed|
      {
        destroyed := destroyed + [queue.block];
        queue := queue.next;
      }
    }

    /** The first two loops of the destructor. */
    method DestroyBlocks() returns (destroyed: seq<DataBlock>)
      requires Lists() && spare == []
      modifies this`queueHead_, this`queueFree_
      ensures destroyed == blocks
    {
      var none := DestroyList(queueFree_, spare);
      destroyed := DestroyList(queueHead_, avail);
      destroyed := none + destroyed;
      queueFree_, queueHead_ := null, null;
    }

    /** The last loop of the destructor: every allocation but the oldest is freed. */
    method FreeCaches() returns (freed: seq<BlockCache>)
      requires CacheChain(cacheHead_, caches) && caches != []
      modifies this`cacheHead_
      ensures cacheHead_ == null && freed == caches[..|caches| - 1]
    {
      freed := [];
      ghost var n := 0;
      while cacheHead_ != null
        invariant n <= |caches|
        invariant cacheHead_ == if n == |caches| then null else caches[n]
        invariant freed == caches[..if n == |caches| then n - 1 else n]
        decreases |caches| - n
      {
        var cache := cacheHead_.next;
        if cache != null {
          freed := freed + [cacheHead_];
        }
        cacheHead_, n := cache, n + 1;
      }
    }

    /** The destructor: with no reference left no block is out, so the spare list is empty, no
        null block is met, and as many different blocks are destroyed as all allocations held.
        Every allocation is freed once, but for the first, which goes with the pool. */
    method Destroy() returns (destroyed: seq<DataBlock>, freed: seq<BlockCache>)
      requires Valid() && reference_ == 0
      modifies this`queueHead_, this`queueFree_, this`cacheHead_
      ensures out == {} && destroyed == blocks && Rings.Distinct(destroyed)
      ensures freed + [caches[|caches| - 1]] == caches && Rings.Distinct(caches)
      ensures cacheBlocks_ * (|freed| + 1) == |destroyed|
    {
      destroyed := DestroyBlocks();
      freed := FreeCaches();
      SpanIsProduct(cacheBlocks_, |caches|);
    }
  }
}
