/** The region arena behind the JSON reader: aligned blocks that never overlap and
    never move. */
module Arena {
  import opened Basics

  // Machine words, `size_t` and `uintptr_t`, are 64 bits wide.
  const WORD: nat := 0x1_0000_0000_0000_0000
  // `malloc` hands out no object this large.
  const HALF: nat := 0x8000_0000_0000_0000
  const BLOCK_SIZE: nat := 4096
  // What a region's own bookkeeping takes in front of its data.
  const HEADER: nat := 32

  predicate IsPowerOfTwo(n: nat) {
    n == 1 || (n > 1 && n % 2 == 0 && IsPowerOfTwo(n / 2))
  }

  /** `json_alloc_align` */
  function Padding(address: nat, alignment: nat): (p: nat)
    requires alignment > 0
    ensures p < alignment
  {
    (alignment - address % alignment) % alignment
  }

  predicate IsAligned(address: nat, alignment: nat)
    requires alignment > 0
  {
    address % alignment == 0
  }

  /** The padding reaches the next aligned address, and stops at none before it. */
  lemma PaddingIsLeast(address: nat, alignment: nat)
    requires alignment > 0
    ensures IsAligned(address + Padding(address, alignment), alignment)
    ensures forall q | address <= q < address + Padding(address, alignment) :: !IsAligned(q, alignment)
  {
    var d, r := address / alignment, address % alignment;
    assert address == d * alignment + r;
    if r == 0 {
      RemainderIs(0, 0, alignment);
      RemainderIs(1, 0, alignment);
    } else {
      RemainderIs(0, alignment - r, alignment);
      NextMultiple(d, alignment);
      RemainderIs(d + 1, 0, alignment);
      forall q | address <= q < address + Padding(address, alignment) ensures !IsAligned(q, alignment) {
        RemainderIs(d, r + (q - address), alignment);
      }
    }
  }

  lemma NextMultiple(d: int, n: int)
    ensures (d + 1) * n == d * n + n
  {
  }

  lemma RemainderIs(d: int, r: int, n: int)
    requires 0 <= r < n
    ensures (d * n + r) % n == r
  {
    var x := d * n + r;
    var q := x / n;
    assert x == n * q + x % n;
    Difference(q, d, n);
    SmallMultiple(q - d, n);
  }

  lemma Difference(a: int, b: int, n: int)
    ensures (a - b) * n == n * a - b * n
  {
  }

  lemma SmallMultiple(c: int, n: int)
    requires n > 0
    ensures c * n == 0 || c * n >= n || c * n <= -n
  {
    if c > 0 {
      AtLeastOnce(c, n);
    } else if c < 0 {
      AtLeastOnce(-c, n);
      assert (-c) * n == -(c * n);
    }
  }

  lemma {:induction false} AtLeastOnce(c: nat, n: nat)
    requires c > 0
    ensures c * n >= n
  {
    if c > 1 {
      AtLeastOnce(c - 1, n);
      NextMultiple(c - 1, n);
    }
  }

  function Pow2(e: nat): nat {
    if e == 0 then 1 else 2 * Pow2(e - 1)
  }

  lemma {:induction false} PowersOfTwoAreSpaced(n: nat, e: nat)
    requires IsPowerOfTwo(n) && n < 2 * Pow2(e)
    ensures n <= Pow2(e)
  {
    if e > 0 && n > 1 {
      PowersOfTwoAreSpaced(n / 2, e - 1);
    }
  }

  /** A power of two that fits a word is at most half of it. */
  lemma AlignmentIsHalfAWord(n: nat)
    requires IsPowerOfTwo(n) && n < WORD
    ensures n <= HALF
  {
    assert Pow2(16) == 0x1_0000;
    assert Pow2(32) == 0x1_0000 * Pow2(16) by { Pow2Sum(16, 16); }
    assert Pow2(48) == 0x1_0000 * Pow2(32) by { Pow2Sum(16, 32); }
    assert Pow2(15) == 0x8000;
    assert Pow2(63) == 0x8000 * Pow2(48) by { Pow2Sum(15, 48); }
    PowersOfTwoAreSpaced(n, 63);
  }

  lemma {:induction false} Pow2Sum(a: nat, b: nat)
    ensures Pow2(a + b) == Pow2(a) * Pow2(b)
  {
    if a > 0 {
      Pow2Sum(a - 1, b);
    }
  }

  function Slack(alignment: nat): nat {
    if alignment > 1 then alignment - 1 else 0
  }

  /** The data size of a region made for a request. */
  function RegionCap(size: nat, alignment: nat): (cap: nat) {
    if size + Slack(alignment) > BLOCK_SIZE then size + Slack(alignment) else BLOCK_SIZE
  }

  /** The bytes asked of `malloc` for it; the sum is taken in a machine word. */
  function RegionBytes(size: nat, alignment: nat): nat {
    (HEADER + RegionCap(size, alignment)) % WORD
  }

  /** The test for room in the current region; the sum is taken in a machine word. */
  predicate HasRoom(index: nat, padding: nat, size: nat, cap: nat) {
    (index + padding + size) % WORD <= cap
  }

  /** The test for room is right exactly when its sum stays in a word, or wraps to
      something still too large. */
  lemma RoomTestIsRight(index: nat, padding: nat, size: nat, cap: nat)
    requires cap < WORD
    ensures (HasRoom(index, padding, size, cap) <==> index + padding + size <= cap)
       <==> (index + padding + size < WORD || (index + padding + size) % WORD > cap)
  {
  }

  /** Where a block starts in its region, in machine words. */
  function Start(data: nat, index: nat, alignment: nat): nat
    requires alignment > 0
  {
    (index + Padding(data + index, alignment)) % WORD
  }

  lemma StaysInRoom(data: nat, index: nat, alignment: nat, size: nat, cap: nat)
    requires alignment > 0 && data + cap < WORD && index + Padding(data + index, alignment) + size <= cap
    ensures var start := Start(data, index, alignment);
            && start == index + Padding(data + index, alignment)
            && (data + start) % WORD == data + start && (start + size) % WORD == start + size
  {
    hide Padding;
  }

  lemma LeavesTheRegion(data: nat, index: nat, alignment: nat, size: nat, cap: nat)
    requires 0 < alignment <= HALF && index <= cap < HALF && size < WORD
    requires HasRoom(index, Padding(data + index, alignment), size, cap) && index + Padding(data + index, alignment) + size > cap
    ensures var start := Start(data, index, alignment);
            (data + start) % WORD < data || (data + start) % WORD + size > data + (start + size) % WORD
  {
    hide Padding;
    var start := Start(data, index, alignment);
    assert start == index + Padding(data + index, alignment);
    assert (start + size) % WORD == start + size - WORD;
  }

  /** A request of the largest size leaves the test satisfied by a region that
      holds 4096 bytes and has one of them in use. */
  lemma RoomTestCanWrap()
    ensures HasRoom(1, 0, WORD - 1, BLOCK_SIZE) && 1 + 0 + (WORD - 1) > BLOCK_SIZE
    ensures RegionBytes(WORD - 1, 1) < RegionCap(WORD - 1, 1)
  {
  }

  // ---- Regions and blocks as values ----

  datatype Block = Block(region: nat, start: nat, size: nat, alignment: nat)

  datatype Extent = Extent(data: nat, cap: nat, index: nat)

  predicate AreApart(start: nat, size: nat, otherStart: nat, otherSize: nat) {
    start + size <= otherStart || otherStart + otherSize <= start
  }

  predicate AreExtentsApart(xs: seq<Extent>) {
    && (forall i | 0 <= i < |xs| :: xs[i].index <= xs[i].cap < HALF && xs[i].data + xs[i].cap < WORD)
    && (forall i, j | 0 <= i < |xs| && 0 <= j < |xs| && i != j :: AreApart(xs[i].data, xs[i].cap, xs[j].data, xs[j].cap))
  }

  /** The block is aligned and inside the used part of its region. */
  predicate IsPlaced(xs: seq<Extent>, b: Block) {
    && b.region < |xs| && b.alignment > 0 && IsAligned(b.start, b.alignment)
    && xs[b.region].data <= b.start && b.start + b.size <= xs[b.region].data + xs[b.region].index
  }

  /** Every block is placed, and no two overlap. */
  predicate IsSound(xs: seq<Extent>, bs: seq<Block>) {
    && AreExtentsApart(xs)
    && (forall k | 0 <= k < |bs| :: IsPlaced(xs, bs[k]))
    && (forall k, l | 0 <= k < l < |bs| :: AreApart(bs[k].start, bs[k].size, bs[l].start, bs[l].size))
  }

  predicate IsRequest(size: nat, alignment: nat) {
    size > 0 && IsPowerOfTwo(alignment) && size + Slack(alignment) < WORD
  }

  predicate PassesRoomTest(x: Extent, size: nat, alignment: nat)
    requires alignment > 0
  {
    HasRoom(x.index, Padding(x.data + x.index, alignment), size, x.cap)
  }

  predicate IsRoomy(x: Extent, size: nat, alignment: nat)
    requires alignment > 0
  {
    x.index + Padding(x.data + x.index, alignment) + size <= x.cap
  }

  /** The current region with `size` more bytes taken, and the block. */
  function Taken(xs: seq<Extent>, size: nat, alignment: nat): (r: seq<Extent>)
    requires xs != [] && alignment > 0
  {
    var x := xs[|xs| - 1];
    xs[..|xs| - 1] + [x.(index := (Start(x.data, x.index, alignment) + size) % WORD)]
  }

  function TakenBlock(xs: seq<Extent>, size: nat, alignment: nat): (b: Block)
    requires xs != [] && alignment > 0
  {
    var x := xs[|xs| - 1];
    Block(|xs| - 1, (x.data + Start(x.data, x.index, alignment)) % WORD, size, alignment)
  }

  lemma OldBlockStays(xs: seq<Extent>, bs: seq<Block>, size: nat, alignment: nat, k: nat)
    requires IsSound(xs, bs) && xs != [] && alignment > 0 && IsRoomy(xs[|xs| - 1], size, alignment) && k < |bs|
    ensures IsPlaced(Taken(xs, size, alignment), bs[k])
    ensures var b := TakenBlock(xs, size, alignment); AreApart(bs[k].start, bs[k].size, b.start, b.size)
  {
    hide Padding;
    var x := xs[|xs| - 1];
    StaysInRoom(x.data, x.index, alignment, size, x.cap);
    var o := bs[k].region;
    assert IsPlaced(xs, bs[k]);
    assert o == |xs| - 1 || AreApart(xs[o].data, xs[o].cap, x.data, x.cap);
  }

  lemma NewBlockIsPlaced(xs: seq<Extent>, bs: seq<Block>, size: nat, alignment: nat)
    requires IsSound(xs, bs) && xs != [] && alignment > 0 && IsRoomy(xs[|xs| - 1], size, alignment)
    ensures AreExtentsApart(Taken(xs, size, alignment))
    ensures IsPlaced(Taken(xs, size, alignment), TakenBlock(xs, size, alignment))
  {
    hide Padding;
    var x := xs[|xs| - 1];
    StaysInRoom(x.data, x.index, alignment, size, x.cap);
    PaddingIsLeast(x.data + x.index, alignment);
  }

  /** Where there is room the block taken is placed, and every other one stays. */
  lemma PlacedInRoom(xs: seq<Extent>, bs: seq<Block>, size: nat, alignment: nat)
    requires IsSound(xs, bs) && xs != [] && alignment > 0 && IsRoomy(xs[|xs| - 1], size, alignment)
    ensures IsSound(Taken(xs, size, alignment), bs + [TakenBlock(xs, size, alignment)])
  {
    hide AreExtentsApart, IsPlaced, AreApart, IsRoomy, Taken, TakenBlock;
    NewBlockIsPlaced(xs, bs, size, alignment);
    forall k | 0 <= k < |bs|
      ensures IsPlaced(Taken(xs, size, alignment), bs[k])
      ensures var b := TakenBlock(xs, size, alignment); AreApart(bs[k].start, bs[k].size, b.start, b.size)
    {
      OldBlockStays(xs, bs, size, alignment, k);
    }
  }

  /** Where the room test passed by wrapping, the block taken lies outside its
      region. */
  lemma OutsideWithoutRoom(xs: seq<Extent>, bs: seq<Block>, size: nat, alignment: nat)
    requires IsSound(xs, bs) && xs != [] && IsRequest(size, alignment) && alignment > 0
    requires PassesRoomTest(xs[|xs| - 1], size, alignment) && !IsRoomy(xs[|xs| - 1], size, alignment)
    ensures !IsPlaced(Taken(xs, size, alignment), TakenBlock(xs, size, alignment))
  {
    hide Padding, IsPowerOfTwo;
    var x := xs[|xs| - 1];
    AlignmentIsHalfAWord(alignment);
    LeavesTheRegion(x.data, x.index, alignment, size, x.cap);
  }

  /** What `malloc` promises of the address it returns for `bytes` bytes. */
  predicate IsFree(xs: seq<Extent>, address: nat, bytes: nat) {
    && bytes < HALF && address + bytes < WORD
    && forall i | 0 <= i < |xs| :: AreApart(address, bytes, xs[i].data, xs[i].cap)
  }

  lemma PlacedStill(xs: seq<Extent>, x: Extent, b: Block)
    requires IsPlaced(xs, b)
    ensures IsPlaced(xs + [x], b)
  {
  }

  /** A region on free memory changes nothing for the blocks there are. */
  lemma GrowsSound(xs: seq<Extent>, bs: seq<Block>, address: nat, cap: nat)
    requires IsSound(xs, bs) && IsFree(xs, address, HEADER + cap)
    ensures IsSound(xs + [Extent(address + HEADER, cap, 0)], bs)
  {
    hide IsPlaced;
    forall k | 0 <= k < |bs| ensures IsPlaced(xs + [Extent(address + HEADER, cap, 0)], bs[k]) {
      PlacedStill(xs, Extent(address + HEADER, cap, 0), bs[k]);
    }
  }

  /** The sums behind an answer stay in a machine word: that of the room test when
      it passes, and that of a new region's bytes when it does not. */
  predicate IsServed(xs: seq<Extent>, size: nat, alignment: nat)
    requires alignment > 0
  {
    if xs != [] && PassesRoomTest(xs[|xs| - 1], size, alignment) then IsRoomy(xs[|xs| - 1], size, alignment)
    else HEADER + RegionCap(size, alignment) < WORD
  }

  /** Every request that is not enormous is served: one that fits a machine word
      together with the current region. */
  lemma RoomyRequestIsServed(xs: seq<Extent>, size: nat, alignment: nat)
    requires alignment > 0 && HEADER + RegionCap(size, alignment) < WORD
    requires xs != [] ==> xs[|xs| - 1].index <= xs[|xs| - 1].cap && size + Slack(alignment) + xs[|xs| - 1].cap < WORD
    ensures IsServed(xs, size, alignment)
  {
    hide Padding;
  }

  /** And so, whatever the arena holds, is every request of up to half a word. */
  lemma SmallRequestIsServed(xs: seq<Extent>, bs: seq<Block>, size: nat, alignment: nat)
    requires IsSound(xs, bs) && alignment > 0 && HEADER + size + Slack(alignment) <= HALF
    ensures IsServed(xs, size, alignment)
  {
    RoomyRequestIsServed(xs, size, alignment);
  }

  // ---- The allocator ----

  class Region {
    const data: nat
    const cap: nat
    var index: nat
    var next: Region?

    constructor (data: nat, cap: nat)
      ensures this.data == data && this.cap == cap && index == 0 && next == null
    {
      this.data, this.cap, index, next := data, cap, 0, null;
    }
  }

  class JsonArena {
    var head: Region?
    var current: Region?
    ghost var regions: seq<Region>
    ghost var blocks: seq<Block>

    constructor ()
      ensures Valid() && blocks == [] && regions == []
    {
      head, current, regions, blocks := null, null, [], [];
    }

    /** The list from `head` is `regions`, and `current` is its last. */
    ghost predicate IsLinked()
      reads this`head, this`current, this`regions, regions`next
    {
      && (regions == [] ==> head == null && current == null)
      && (regions != [] ==> head == regions[0] && current == regions[|regions| - 1] && regions[|regions| - 1].next == null)
      && (forall i | 0 <= i < |regions| - 1 :: regions[i].next == regions[i + 1])
      && (forall i, j | 0 <= i < j < |regions| :: regions[i] != regions[j])
    }

    ghost function Extents(): (xs: seq<Extent>)
      reads this, regions
      ensures |xs| == |regions|
    {
      seq(|regions|, i requires 0 <= i < |regions| reads this, regions =>
                       Extent(regions[i].data, regions[i].cap, regions[i].index))
    }

    ghost predicate Valid()
      reads this, regions
    {
      IsLinked() && IsSound(Extents(), blocks)
    }

    lemma LastIsCurrent()
      requires IsLinked()
      ensures current != null <==> regions != []
      ensures current != null ==> current == regions[|regions| - 1]
                                  && Extents()[|regions| - 1] == Extent(current.data, current.cap, current.index)
      ensures forall i | 0 <= i < |regions| - 1 :: regions[i] != current
    {
    }

    /** Appends a region; `address` is what `malloc` returned for it. */
    method Grow(address: nat, cap: nat)
      requires IsLinked()
      modifies this, current
      ensures IsLinked() && current != null && fresh(current) && blocks == old(blocks) && old(regions) <= regions
      ensures Extents() == old(Extents()) + [Extent(address + HEADER, cap, 0)]
    {
      ghost var was := regions;
      LastIsCurrent();
      var region := new Region(address + HEADER, cap);
      if current == null {
        head := region;
      } else {
        current.next := region;
      }
      current := region;
      regions := regions + [region];
      assert forall i | 0 <= i < |was| :: regions[i] == was[i] && was[i].index == old(was[i].index);
    }

    /** Takes `size` bytes behind the padding in the current region, in machine
        words. */
    method Take(size: nat, alignment: nat) returns (ptr: nat)
      requires IsLinked() && current != null && alignment > 0
      modifies this`blocks, current`index
      ensures IsLinked() && regions == old(regions) && regions != []
      ensures Extents() == Taken(old(Extents()), size, alignment)
      ensures ptr == TakenBlock(old(Extents()), size, alignment).start
      ensures blocks == old(blocks) + [TakenBlock(old(Extents()), size, alignment)]
    {
      hide Padding, IsLinked;
      LastIsCurrent();
      ghost var xs := Extents();
      var r := current;
      var padding := Padding(r.data + r.index, alignment);
      r.index := (r.index + padding) % WORD;
      ptr := (r.data + r.index) % WORD;
      r.index := (r.index + size) % WORD;
      blocks := blocks + [Block(|regions| - 1, ptr, size, alignment)];
      assert Extents() == Taken(xs, size, alignment);
    }

    /** `json_alloc`. A block is refused for a request that makes no sense and when
        `malloc` has nothing. Every block handed out is aligned, lies inside one
        region, and overlaps no earlier one, all of which stay where they are, for
        exactly the requests whose sums stay in a machine word. */
    method Alloc(size: nat, alignment: nat, given: Option<nat>) returns (ptr: Option<nat>)
      requires Valid()
      requires given.Some? ==> IsFree(Extents(), given.value, RegionBytes(size, alignment))
      modifies this, current
      ensures var xs := old(Extents());
              var passes := IsRequest(size, alignment) && xs != [] && PassesRoomTest(xs[|xs| - 1], size, alignment);
              && (ptr.Some? <==> IsRequest(size, alignment) && (passes || given.Some?))
              && (ptr.Some? ==> (Valid() <==> IsServed(xs, size, alignment)))
              && |regions| == |xs| + if ptr.Some? && !passes then 1 else 0
      ensures ptr.None? ==> Valid() && blocks == old(blocks)
      ensures ptr.Some? ==> regions != [] && blocks == old(blocks) + [Block(|regions| - 1, ptr.value, size, alignment)]
      ensures IsLinked() && old(regions) <= regions
    {
      hide IsLinked, IsSound, Padding, HasRoom, IsFree, IsPlaced, Taken, PassesRoomTest, IsRoomy, Start;
      if size == 0 || alignment == 0 || !IsPowerOfTwo(alignment) || size + Slack(alignment) >= WORD {
        return None;
      }
      ghost var xs, bs := Extents(), blocks;
      LastIsCurrent();
      if current == null {
        if given.None? {
          return None;
        }
        Grow(given.value, RegionCap(size, alignment));
        FreshIsRoomy(given.value + HEADER, size, alignment);
      }
      LastIsCurrent();
      RoomTestIs(Extents()[|regions| - 1], size, alignment);
      var padding := Padding(current.data + current.index, alignment);
      if !HasRoom(current.index, padding, size, current.cap) {
        if given.None? {
          return None;
        }
        Grow(given.value, RegionCap(size, alignment));
        FreshIsRoomy(given.value + HEADER, size, alignment);
      }
      var p := Take(size, alignment);
      if xs == [] || !PassesRoomTest(xs[|xs| - 1], size, alignment) {
        FreshBlock(xs, bs, given.value, size, alignment);
      } else {
        BlockBesides(xs, bs, size, alignment);
      }
      return Some(p);
    }

    /** `json_alloc_free` gives back every region, once, in the order they were made. */
    method Free() returns (freed: seq<Region>)
      requires Valid()
      ensures freed == regions
    {
      freed := [];
      var region := head;
      while region != null
        invariant |freed| <= |regions| && freed == regions[..|freed|]
        invariant region == if |freed| < |regions| then regions[|freed|] else null
        decreases |regions| - |freed|
      {
        var next := region.next;
        freed := freed + [region];
        region := next;
      }
    }
  }

  /** A region made for a request always holds it, whatever its address. */
  lemma FreshRegionFits(data: nat, size: nat, alignment: nat)
    requires alignment > 0
    ensures Padding(data, alignment) + size <= RegionCap(size, alignment)
    ensures HasRoom(0, Padding(data, alignment), size, RegionCap(size, alignment))
  {
  }

  lemma FreshIsRoomy(data: nat, size: nat, alignment: nat)
    requires alignment > 0
    ensures var x := Extent(data, RegionCap(size, alignment), 0); IsRoomy(x, size, alignment) && PassesRoomTest(x, size, alignment)
  {
    FreshRegionFits(data, size, alignment);
  }

  lemma RoomTestIs(x: Extent, size: nat, alignment: nat)
    requires alignment > 0
    ensures PassesRoomTest(x, size, alignment) <==> HasRoom(x.index, Padding(x.data + x.index, alignment), size, x.cap)
  {
  }

  /** A block at the head of a new region is placed exactly when the bytes of the
      region can be asked for. */
  lemma FreshBlock(xs: seq<Extent>, bs: seq<Block>, address: nat, size: nat, alignment: nat)
    requires IsSound(xs, bs) && alignment > 0 && IsFree(xs, address, RegionBytes(size, alignment))
    ensures var ys := xs + [Extent(address + HEADER, RegionCap(size, alignment), 0)];
            IsSound(Taken(ys, size, alignment), bs + [TakenBlock(ys, size, alignment)])
            <==> HEADER + RegionCap(size, alignment) < WORD
  {
    hide IsPlaced, IsRoomy, Start, AreApart, IsFree;
    var x := Extent(address + HEADER, RegionCap(size, alignment), 0);
    var ys := xs + [x];
    if HEADER + RegionCap(size, alignment) < WORD {
      GrowsSound(xs, bs, address, RegionCap(size, alignment));
      FreshIsRoomy(x.data, size, alignment);
      PlacedInRoom(ys, bs, size, alignment);
    } else {
      assert Taken(ys, size, alignment)[|ys| - 1].cap == x.cap >= HALF;
    }
  }

  lemma BlockBesides(xs: seq<Extent>, bs: seq<Block>, size: nat, alignment: nat)
    requires IsSound(xs, bs) && xs != [] && IsRequest(size, alignment) && alignment > 0
    requires PassesRoomTest(xs[|xs| - 1], size, alignment)
    ensures IsSound(Taken(xs, size, alignment), bs + [TakenBlock(xs, size, alignment)])
            <==> IsRoomy(xs[|xs| - 1], size, alignment)
  {
    hide IsPlaced, IsRoomy, Taken, TakenBlock, AreApart, AreExtentsApart, PassesRoomTest, IsRequest;
    if IsRoomy(xs[|xs| - 1], size, alignment) {
      PlacedInRoom(xs, bs, size, alignment);
    } else {
      OutsideWithoutRoom(xs, bs, size, alignment);
      var all := bs + [TakenBlock(xs, size, alignment)];
      assert all[|bs|] == TakenBlock(xs, size, alignment);
    }
  }
}
