/** A pool of equal GPU blocks, lent from a free list threaded through an array of slots. */
module BufferPool {
  import opened Results

  const SIZE_LIMIT := 0x1_0000_0000_0000_0000
  const ALIGNMENT := 256

  /** Row size rounded up to the alignment, in the wrapping arithmetic of size_t. */
  function Pitch(cols: nat, elementSize: nat): nat {
    var padded := (cols * elementSize + (ALIGNMENT - 1)) % SIZE_LIMIT;
    padded - padded % ALIGNMENT
  }

  /** A row fits its pitch, which is always aligned, exactly when the padded size does not wrap around. */
  lemma RowFitsIffNoWrap(cols: nat, elementSize: nat)
    ensures Pitch(cols, elementSize) % ALIGNMENT == 0
    ensures cols * elementSize <= Pitch(cols, elementSize) <==> cols * elementSize <= SIZE_LIMIT - ALIGNMENT
  {
    RoundedDown(cols * elementSize);
  }

  lemma RoundedDown(bytes: nat)
    ensures var padded := (bytes + (ALIGNMENT - 1)) % SIZE_LIMIT;
            var pitch := padded - padded % ALIGNMENT;
            pitch % ALIGNMENT == 0 && (bytes <= pitch <==> bytes <= SIZE_LIMIT - ALIGNMENT)
  {
    var padded := (bytes + (ALIGNMENT - 1)) % SIZE_LIMIT;
    assert padded == ALIGNMENT * (padded / ALIGNMENT) + padded % ALIGNMENT;
    Divides(padded / ALIGNMENT);
    assert SIZE_LIMIT == ALIGNMENT * (SIZE_LIMIT / ALIGNMENT);
  }

  datatype Shape = Shape(rows: nat, cols: nat, elementSize: nat)

  /** `free` lists the free slots from the head; `lent` are the blocks handed out and not returned. */
  datatype Pool = Pool(
    capacity: nat, shape: Option<Shape>, blockBytes: nat, slots: nat,
    free: seq<nat>, lent: set<nat>, retired: set<nat>)

  /** A block inside the pool, or a request passed on to the standard allocator. */
  datatype Allocation = Block(offset: nat, pitch: nat) | Standard

  predicate Requestable(rows: nat, cols: nat, elementSize: nat) {
    rows > 0 && cols > 0 && elementSize > 0
  }

  function New(capacity: nat): Pool {
    Pool(capacity, None, 0, 0, [], {}, {})
  }

  function Upto(n: nat): seq<nat> {
    seq(n, i => i)
  }

  /** The first request that fits fixes the shape of every block. */
  function Shaped(p: Pool, rows: nat, cols: nat, elementSize: nat, bytes: nat): Pool
    requires bytes > 0
  {
    if p.slots != 0 then p
    else
      p.(shape := Some(Shape(rows, cols, elementSize)), blockBytes := bytes,
         slots := p.capacity / bytes, free := Upto(p.capacity / bytes))
  }

  function Allocate(p: Pool, rows: nat, cols: nat, elementSize: nat): (Pool, Allocation)
    requires Requestable(rows, cols, elementSize)
  {
    var pitch := Pitch(cols, elementSize);
    if pitch == 0 || rows > p.capacity / pitch then (p, Standard)
    else
      var q := Shaped(p, rows, cols, elementSize, PositiveProduct(pitch, rows));
      if q.shape == Some(Shape(rows, cols, elementSize)) && q.free != [] then
        (q.(free := q.free[1..], lent := q.lent + {q.free[0]}), Block(q.free[0] * q.blockBytes, pitch))
      else (q, Standard)
  }

  function PositiveProduct(x: nat, y: nat): (z: nat)
    requires x > 0 && y > 0
    ensures z > 0 && z == x * y
  {
    AtLeastOnce(x, y);
    x * y
  }

  // ----- products and quotients

  lemma {:induction false} NonnegativeProduct(k: nat, b: nat)
    ensures k * b >= 0
  {
    if k > 0 {
      NonnegativeProduct(k - 1, b);
      assert k * b == (k - 1) * b + b;
    }
  }

  lemma AtLeastOnce(k: nat, b: nat)
    requires k >= 1
    ensures k * b >= b
  {
    NonnegativeProduct(k - 1, b);
    assert k * b == (k - 1) * b + b;
  }

  lemma OneStepUp(low: nat, high: nat, b: nat)
    requires low < high
    ensures high * b >= low * b + b
  {
    AtLeastOnce(high - low, b);
    assert (high - low) * b == high * b - low * b;
  }

  lemma UniqueQuotient(n: nat, b: nat, q: nat, r: nat)
    requires b > 0 && n == q * b + r && r < b
    ensures n / b == q && n % b == r
  {
    var d, m := n / b, n % b;
    assert n == d * b + m && 0 <= m < b;
    if d > q {
      OneStepUp(q, d, b);
    } else if d < q {
      OneStepUp(d, q, b);
    }
  }

  predicate Owns(p: Pool, offset: nat) {
    p.blockBytes > 0 && offset % p.blockBytes == 0 && offset / p.blockBytes in p.lent
  }

  function Free(p: Pool, offset: nat): Pool
    requires Owns(p, offset)
  {
    var index := offset / p.blockBytes;
    var back := p.(lent := p.lent - {index});
    if index in p.retired then back else back.(free := [index] + p.free)
  }

  function Retire(p: Pool, offset: nat): Pool
    requires Owns(p, offset)
  {
    p.(retired := p.retired + {offset / p.blockBytes})
  }

  // ----- what every pool keeps

  /** The bytes an image of a shape takes in the pool, row by row at the aligned pitch. */
  function ShapeBytes(s: Shape): int {
    Pitch(s.cols, s.elementSize) * s.rows
  }

  ghost predicate Distinct(s: seq<nat>) {
    forall i, j :: 0 <= i < j < |s| ==> s[i] != s[j]
  }

  /** The free list holds exactly the slots that are neither lent nor retired, once each. */
  ghost predicate Valid(p: Pool) {
    && Distinct(p.free)
    && (forall i :: i in p.free ==> i < p.slots)
    && (forall i :: i in p.lent || i in p.retired ==> i < p.slots)
    && (forall i: nat :: i < p.slots ==> (i in p.free <==> i !in p.lent && i !in p.retired))
    && (p.slots > 0 ==>
          && p.shape.Some? && p.blockBytes == ShapeBytes(p.shape.value)
          && p.blockBytes > 0 && p.blockBytes % ALIGNMENT == 0 && p.slots * p.blockBytes <= p.capacity)
    && (p.slots == 0 ==> p.free == [])
  }

  lemma ShapedIsValid(p: Pool, rows: nat, cols: nat, elementSize: nat, bytes: nat)
    requires Valid(p) && bytes == ShapeBytes(Shape(rows, cols, elementSize)) && bytes > 0
    requires Pitch(cols, elementSize) > 0 && rows <= p.capacity / Pitch(cols, elementSize)
    ensures var q := Shaped(p, rows, cols, elementSize, bytes);
            && Valid(q) && q.slots > 0 && q.capacity == p.capacity && q.lent == p.lent && q.retired == p.retired
            && (p.slots > 0 ==> q == p)
  {
    hide Pitch;
    var pitch := Pitch(cols, elementSize);
    PitchAligned(cols, elementSize);
    if p.slots == 0 {
      var n := p.capacity / bytes;
      BlocksFit(p.capacity, pitch, rows, bytes);
      MultipleOfAlignment(pitch, rows);
      forall i: nat | i < n
        ensures i in Upto(n)
      {
        assert Upto(n)[i] == i;
      }
    }
  }

  lemma BlocksFit(capacity: nat, pitch: nat, rows: nat, bytes: nat)
    requires pitch > 0 && bytes == pitch * rows && bytes > 0 && rows <= capacity / pitch
    ensures capacity / bytes >= 1 && capacity / bytes * bytes <= capacity
  {
    var k := capacity / pitch;
    assert capacity == pitch * k + capacity % pitch;
    NonnegativeProduct(k - rows, pitch);
    assert pitch * rows == pitch * k - (k - rows) * pitch;
    assert bytes <= capacity;
    var n := capacity / bytes;
    assert capacity == n * bytes + capacity % bytes;
    assert n == 0 ==> n * bytes == 0;
  }

  lemma MultipleOfAlignment(pitch: nat, rows: nat)
    requires pitch % ALIGNMENT == 0
    ensures (pitch * rows) % ALIGNMENT == 0
  {
    var k := pitch / ALIGNMENT;
    assert pitch * rows == ALIGNMENT * (k * rows);
    Divides(k * rows);
  }

  lemma Divides(m: nat)
    ensures (ALIGNMENT * m) % ALIGNMENT == 0
  {
  }

  lemma PitchAligned(cols: nat, elementSize: nat)
    ensures Pitch(cols, elementSize) % ALIGNMENT == 0
  {
    RoundedDown(cols * elementSize);
  }

  /** A lent block was free before, and retired blocks are never lent again. */
  lemma AllocateKeeps(p: Pool, rows: nat, cols: nat, elementSize: nat)
    requires Valid(p) && Requestable(rows, cols, elementSize)
    ensures var (q, a) := Allocate(p, rows, cols, elementSize);
            && Valid(q) && q.retired == p.retired && q.capacity == p.capacity
            && (p.slots > 0 ==> q.shape == p.shape && q.blockBytes == p.blockBytes && q.slots == p.slots)
            && (a.Standard? ==> q.lent == p.lent)
            && (a.Block? ==>
                  var i := a.offset / q.blockBytes;
                  && Owns(q, a.offset) && a.offset == i * q.blockBytes
                  && i !in p.lent && i !in p.retired && q.lent == p.lent + {i}
                  && q.shape == Some(Shape(rows, cols, elementSize)) && a.pitch == Pitch(cols, elementSize))
  {
    hide Pitch;
    PitchAligned(cols, elementSize);
    var pitch := Pitch(cols, elementSize);
    if pitch != 0 && rows <= p.capacity / pitch {
      var bytes := PositiveProduct(pitch, rows);
      ShapedIsValid(p, rows, cols, elementSize, bytes);
      var q := Shaped(p, rows, cols, elementSize, bytes);
      if q.free != [] {
        TakeFirst(q);
        QuotientOfMultiple(q.free[0], q.blockBytes);
      }
    }
  }

  lemma FitsIffProductFits(capacity: nat, pitch: nat, rows: nat)
    requires pitch > 0
    ensures rows <= capacity / pitch <==> pitch * rows <= capacity
  {
    var k := capacity / pitch;
    assert capacity == pitch * k + capacity % pitch;
    if rows <= k {
      NonnegativeProduct(k - rows, pitch);
      assert pitch * rows == pitch * k - (k - rows) * pitch;
    } else {
      OneStepUp(k, rows, pitch);
      assert pitch * k == k * pitch && pitch * rows == rows * pitch;
    }
  }

  /** A block is there for the asking. */
  ghost predicate Available(p: Pool) {
    exists i: nat :: i < p.slots && i !in p.lent && i !in p.retired
  }

  lemma AvailableIffFree(p: Pool)
    requires Valid(p)
    ensures Available(p) <==> p.free != []
  {
    if p.free != [] {
      assert p.free[0] in p.free;
    }
  }

  /**
   * A request is met from the pool exactly if an image of its size fits the capacity and, once the shape is fixed, it
   * has that shape and some block is neither lent nor retired. The first one that fits cuts the pool into as many
   * blocks as it holds.
   */
  lemma RequestIsMetIff(p: Pool, rows: nat, cols: nat, elementSize: nat)
    requires Valid(p) && Requestable(rows, cols, elementSize)
    ensures var (q, a) := Allocate(p, rows, cols, elementSize);
            var (pitch, bytes) := (Pitch(cols, elementSize), Pitch(cols, elementSize) * rows);
            && (a.Block? <==>
                  && 0 < pitch && bytes <= p.capacity
                  && (p.slots == 0 || (p.shape == Some(Shape(rows, cols, elementSize)) && Available(p))))
            && (a.Block? && p.slots == 0 ==>
                  q.blockBytes == bytes && q.slots * bytes <= p.capacity < (q.slots + 1) * bytes)
  {
    hide Pitch;
    PitchAligned(cols, elementSize);
    AvailableIffFree(p);
    var pitch := Pitch(cols, elementSize);
    if pitch != 0 {
      FitsIffProductFits(p.capacity, pitch, rows);
      if rows <= p.capacity / pitch {
        var bytes := PositiveProduct(pitch, rows);
        ShapedIsValid(p, rows, cols, elementSize, bytes);
        var q := Shaped(p, rows, cols, elementSize, bytes);
        AvailableIffFree(q);
        if p.slots == 0 {
          LargestQuotient(p.capacity, bytes);
          FirstIsFree(q);
        }
      }
    }
  }

  lemma LargestQuotient(n: nat, b: nat)
    requires b > 0
    ensures n / b * b <= n < (n / b + 1) * b
  {
    assert n == n / b * b + n % b;
  }

  lemma FirstIsFree(q: Pool)
    requires q.slots > 0 && q.free == Upto(q.slots)
    ensures q.free != []
  {
  }

  lemma QuotientOfMultiple(i: nat, b: nat)
    requires b > 0
    ensures i * b >= 0 && (i * b) / b == i && (i * b) % b == 0
  {
    NonnegativeProduct(i, b);
    UniqueQuotient(i * b, b, i, 0);
  }

  lemma TakeFirst(q: Pool)
    requires Valid(q) && q.free != []
    ensures Valid(q.(free := q.free[1..], lent := q.lent + {q.free[0]}))
    ensures q.free[0] !in q.lent && q.free[0] !in q.retired
  {
    var head, tail := q.free[0], q.free[1..];
    assert q.free == [head] + tail;
    forall i
      ensures i in q.free <==> i == head || i in tail
    {
    }
    assert head in q.free && head !in tail;
    assert Distinct(tail);
  }

  lemma ReturnKeeps(p: Pool, offset: nat)
    requires Valid(p) && Owns(p, offset)
    ensures var q := Free(p, offset);
            && Valid(q) && q == p.(lent := q.lent, free := q.free) && q.lent == p.lent - {offset / p.blockBytes}
            && (offset / p.blockBytes in p.retired ==> q.free == p.free)
  {
  }

  lemma RetireKeeps(p: Pool, offset: nat)
    requires Valid(p) && Owns(p, offset)
    ensures Valid(Retire(p, offset)) && offset / p.blockBytes !in Retire(p, offset).free
  {
  }

  // ----- every run

  datatype Op = Request(rows: nat, cols: nat, elementSize: nat) | Return(offset: nat) | Spoil(offset: nat)

  function Perform(p: Pool, op: Op): Pool {
    match op
    case Request(rows, cols, elementSize) =>
      if Requestable(rows, cols, elementSize) then Allocate(p, rows, cols, elementSize).0 else p
    case Return(offset) => if Owns(p, offset) then Free(p, offset) else p
    case Spoil(offset) => if Owns(p, offset) then Retire(p, offset) else p
  }

  function Run(p: Pool, ops: seq<Op>): Pool
    decreases ops
  {
    if ops == [] then p else Run(Perform(p, ops[0]), ops[1..])
  }

  lemma PerformKeeps(p: Pool, op: Op)
    requires Valid(p)
    ensures Valid(Perform(p, op)) && p.retired <= Perform(p, op).retired && Perform(p, op).capacity == p.capacity
  {
    hide Valid, Owns;
    match op
    case Request(rows, cols, elementSize) =>
      if Requestable(rows, cols, elementSize) {
        AllocateKeeps(p, rows, cols, elementSize);
      }
    case Return(offset) =>
      if Owns(p, offset) {
        ReturnKeeps(p, offset);
      }
    case Spoil(offset) =>
      if Owns(p, offset) {
        RetireKeeps(p, offset);
      }
  }

  lemma {:induction false} RunKeeps(p: Pool, ops: seq<Op>)
    requires Valid(p)
    ensures Valid(Run(p, ops)) && p.retired <= Run(p, ops).retired && Run(p, ops).capacity == p.capacity
    decreases ops
  {
    hide Valid, Perform;
    if ops != [] {
      PerformKeeps(p, ops[0]);
      RunKeeps(Perform(p, ops[0]), ops[1..]);
    }
  }

  /** In every state a pool can reach, the free list visits exactly the slots neither lent nor retired, once each. */
  lemma FreeListIsExact(capacity: nat, ops: seq<Op>, i: nat)
    ensures var p := Run(New(capacity), ops);
            multiset(p.free)[i] == if i < p.slots && i !in p.lent && i !in p.retired then 1 else 0
  {
    RunKeeps(New(capacity), ops);
    DistinctCountsOnce(Run(New(capacity), ops).free, i);
  }

  lemma {:induction false} DistinctCountsOnce(s: seq<nat>, x: nat)
    requires Distinct(s)
    ensures multiset(s)[x] == if x in s then 1 else 0
  {
    if s != [] {
      var last := s[|s| - 1];
      assert s == s[..|s| - 1] + [last];
      assert last !in s[..|s| - 1];
      DistinctCountsOnce(s[..|s| - 1], x);
    }
  }

  /**
   * In every state a lent block starts at an aligned offset, lies inside the pool, and holds exactly an image of the
   * pool's shape.
   */
  lemma LentBlockIsInside(capacity: nat, ops: seq<Op>, i: nat)
    requires i in Run(New(capacity), ops).lent
    ensures var p := Run(New(capacity), ops);
            var size := p.blockBytes;
            && size > 0 && (i * size) % ALIGNMENT == 0 && i * size + size <= capacity
            && p.shape.Some? && size == Pitch(p.shape.value.cols, p.shape.value.elementSize) * p.shape.value.rows
  {
    hide Pitch;
    RunKeeps(New(capacity), ops);
    var p := Run(New(capacity), ops);
    BlockInside(i, p.slots, p.blockBytes);
    MultipleOfAlignment(p.blockBytes, i);
    assert i * p.blockBytes == p.blockBytes * i;
  }

  /** In every state two lent blocks do not overlap. */
  lemma LentBlocksAreSeparate(capacity: nat, ops: seq<Op>, i: nat, j: nat)
    requires i in Run(New(capacity), ops).lent && j in Run(New(capacity), ops).lent && i != j
    ensures var size := Run(New(capacity), ops).blockBytes;
            i * size + size <= j * size || j * size + size <= i * size
  {
    Apart(i, j, Run(New(capacity), ops).blockBytes);
  }

  lemma BlockInside(i: nat, n: nat, size: nat)
    requires i < n
    ensures i * size + size <= n * size
  {
    OneStepUp(i, n, size);
  }

  lemma Apart(i: nat, j: nat, size: nat)
    requires i != j
    ensures i * size + size <= j * size || j * size + size <= i * size
  {
    if i < j {
      BlockInside(i, j, size);
    } else {
      BlockInside(j, i, size);
    }
  }

  /** A retired block is never lent again, whatever follows. */
  lemma RetiredIsNeverLentAgain(capacity: nat, before: seq<Op>, offset: nat, after: seq<Op>, rows: nat, cols: nat,
    elementSize: nat)
    requires Owns(Run(New(capacity), before), offset) && Requestable(rows, cols, elementSize)
    ensures var spoiled := Retire(Run(New(capacity), before), offset);
            var index := offset / spoiled.blockBytes;
            var p := Run(spoiled, after);
            && index in p.retired && index !in p.free
            && var (q, a) := Allocate(p, rows, cols, elementSize);
               a.Block? ==> q.blockBytes > 0 && a.offset / q.blockBytes != index
  {
    RunKeeps(New(capacity), before);
    var spoiled := Retire(Run(New(capacity), before), offset);
    RetireKeeps(Run(New(capacity), before), offset);
    RunKeeps(spoiled, after);
    var p := Run(spoiled, after);
    AllocateKeeps(p, rows, cols, elementSize);
    assert offset / spoiled.blockBytes in p.retired;
  }

  // ----- the object: the free list as links between slots

  datatype Slot = Slot(next: nat, retired: bool)

  /** Following the links from `head` visits `free` and ends at the number of slots. */
  ghost predicate Linked(slots: seq<Slot>, head: nat, free: seq<nat>)
    decreases free
  {
    if free == [] then head == |slots|
    else head == free[0] && head < |slots| && Linked(slots, slots[head].next, free[1..])
  }

  lemma {:induction false} LinksElsewhere(slots: seq<Slot>, head: nat, free: seq<nat>, i: nat, slot: Slot)
    requires Linked(slots, head, free) && i < |slots| && (i !in free || slot.next == slots[i].next)
    ensures Linked(slots[i := slot], head, free)
    decreases free
  {
    if free != [] {
      LinksElsewhere(slots, slots[head].next, free[1..], i, slot);
    }
  }

  lemma {:induction false} FreshLinks(slots: seq<Slot>, k: nat)
    requires k <= |slots| && forall i :: 0 <= i < |slots| ==> slots[i].next == i + 1
    ensures Linked(slots, k, Upto(|slots|)[k..])
    decreases |slots| - k
  {
    if k < |slots| {
      FreshLinks(slots, k + 1);
      assert Upto(|slots|)[k..][1..] == Upto(|slots|)[k + 1..];
    }
  }

  class GpuMatBufferPool {
    const capacity: nat
    var slots: array<Slot>
    var freeHead: nat
    var blockBytes: nat
    var shape: Option<Shape>
    ghost var free: seq<nat>
    ghost var lent: set<nat>

    ghost function View(): Pool
      reads this, slots
    {
      Pool(capacity, shape, blockBytes, slots.Length, free, lent, set i | 0 <= i < slots.Length && slots[i].retired)
    }

    ghost predicate Consistent()
      reads this, slots
    {
      Valid(View()) && Linked(slots[..], freeHead, free)
    }

    constructor (capacity: nat)
      ensures Consistent() && this.capacity == capacity && View() == New(capacity) && fresh(slots)
    {
      this.capacity := capacity;
      slots := new Slot[0];
      freeHead, blockBytes, shape := 0, 0, None;
      free, lent := [], {};
      new;
      assert View().retired == {};
    }

    method AllocateBlock(rows: nat, cols: nat, elementSize: nat) returns (a: Allocation)
      requires Consistent() && Requestable(rows, cols, elementSize)
      modifies this, slots
      ensures Consistent()
      ensures slots != old(slots) ==> fresh(slots)
      ensures (View(), a) == Allocate(old(View()), rows, cols, elementSize)
    {
      hide Pitch;
      var pitch := Pitch(cols, elementSize);
      AllocateKeeps(View(), rows, cols, elementSize);
      PitchAligned(cols, elementSize);
      if pitch == 0 || rows > capacity / pitch {
        return Standard;
      }
      var bytes := PositiveProduct(pitch, rows);
      ShapedIsValid(View(), rows, cols, elementSize, bytes);
      if slots.Length == 0 {
        CreateSlots(rows, cols, elementSize, bytes);
      }
      assert View() == Shaped(old(View()), rows, cols, elementSize, bytes);
      hide Valid, Shaped;
      if shape == Some(Shape(rows, cols, elementSize)) && freeHead < slots.Length {
        var index := TakeHead();
        return Block(index * blockBytes, pitch);
      }
      return Standard;
    }

    method TakeHead() returns (index: nat)
      requires Consistent() && freeHead < slots.Length
      modifies this`freeHead, this`free, this`lent
      ensures Consistent() && old(free) != [] && index == old(free[0])
      ensures View() == old(View()).(free := old(free[1..]), lent := old(lent) + {index})
    {
      TakeFirst(View());
      index := freeHead;
      freeHead := slots[index].next;
      free := free[1..];
      lent := lent + {index};
    }

    /** Creates the slots on first use. */
    method CreateSlots(rows: nat, cols: nat, elementSize: nat, bytes: nat)
      requires slots.Length == 0 && bytes > 0 && Consistent()
      modifies this
      ensures fresh(slots)
      ensures View() == Shaped(old(View()), rows, cols, elementSize, bytes)
      ensures Linked(slots[..], freeHead, free) && lent == old(lent)
    {
      var n := capacity / bytes;
      slots := new Slot[n](i => Slot(i + 1, false));
      shape, blockBytes, freeHead := Some(Shape(rows, cols, elementSize)), bytes, 0;
      free := Upto(n);
      FreshLinks(slots[..], 0);
      assert Upto(n)[0..] == Upto(n);
      assert View().retired == {};
    }

    method FreeBlock(offset: nat)
      requires Consistent() && Owns(View(), offset)
      modifies this, slots
      ensures Consistent() && slots == old(slots)
      ensures View() == Free(old(View()), offset)
    {
      ReturnKeeps(View(), offset);
      var index := offset / blockBytes;
      ghost var was := slots[..];
      lent := lent - {index};
      if slots[index].retired {
        return;
      }
      LinksElsewhere(was, freeHead, free, index, Slot(freeHead, false));
      slots[index] := slots[index].(next := freeHead);
      freeHead := index;
      free := [index] + free;
      assert slots[..] == was[index := Slot(old(freeHead), false)];
      assert free[1..] == old(free);
    }

    method RetireBlock(offset: nat)
      requires Consistent() && Owns(View(), offset)
      modifies slots
      ensures Consistent() && slots == old(slots)
      ensures View() == Retire(old(View()), offset)
    {
      RetireKeeps(View(), offset);
      var index := offset / blockBytes;
      ghost var was := slots[..];
      LinksElsewhere(was, freeHead, free, index, was[index].(retired := true));
      slots[index] := slots[index].(retired := true);
      assert slots[..] == was[index := was[index].(retired := true)];
    }
  }
}
