/** The bump allocator that decoded messages live in. */
module Arenas {

  /** `base` is the address of the buffer; an empty arena has no buffer. */
  datatype Arena = Arena(base: nat, capacity: nat, offset: nat)

  datatype Block = Null | At(address: nat, size: nat)

  function AlignUp(x: nat, alignment: nat): (r: nat)
    requires alignment > 0
    ensures r >= x && r < x + alignment && r % alignment == 0
  {
    var q := (x + alignment - 1) / alignment;
    assert (x + alignment - 1) % alignment < alignment;
    assert q * alignment == (x + alignment - 1) - (x + alignment - 1) % alignment;
    MultipleOf(q, alignment);
    q * alignment
  }

  lemma MultipleOf(q: nat, m: nat)
    requires m > 0
    ensures (q * m) % m == 0
  {
    var d := q - (q * m) / m;
    assert (q * m) % m == d * m;
    assert d >= 1 ==> d * m >= m;
    assert d <= -1 ==> d * m + m <= 0;
  }

  /** The block handed out and the arena after it. */
  function Allocate(a: Arena, size: nat, alignment: nat): (r: (Block, Arena))
    requires alignment > 0
    ensures r.0.At? ==>
      && r.0.size == size && r.0.address % alignment == 0
      && a.base + a.offset <= r.0.address && r.0.address + size == r.1.base + r.1.offset <= a.base + a.capacity
      && r.1.offset > a.offset
    ensures r.1.base == a.base && r.1.capacity == a.capacity && (r.0.Null? ==> r.1 == a)
  {
    if a.capacity == 0 || size == 0 then (Null, a) else
    var address := AlignUp(a.base + a.offset, alignment);
    var start := address - a.base;
    if start + size > a.capacity then (Null, a)
    else (At(address, size), a.(offset := start + size))
  }

  /** Multiples less than one apart from above are not above. */
  lemma MultiplesApart(r: nat, y: nat, m: nat)
    requires m > 0 && r % m == 0 && y % m == 0 && r < y + m
    ensures r <= y
  {
    var p, q := r / m, y / m;
    if p > q { Scaled(p, q + 1, m); } else { Scaled(q, p, m); }
  }

  lemma Scaled(p: nat, q: nat, m: nat)
    requires p >= q
    ensures p * m >= q * m
  {
    assert (p - q) * m >= 0;
  }

  /** Rounding up gives the first multiple. */
  lemma FirstMultiple(x: nat, alignment: nat, y: nat)
    requires alignment > 0 && y % alignment == 0 && x <= y
    ensures AlignUp(x, alignment) <= y
  {
    MultiplesApart(AlignUp(x, alignment), y, alignment);
  }

  ghost predicate Apart(a: Block, b: Block) {
    a.At? && b.At? ==> a.address + a.size <= b.address || b.address + b.size <= a.address
  }

  /** Some aligned block of that size lies between the two addresses. */
  ghost predicate Room(from: nat, to: nat, size: nat, alignment: nat)
    requires alignment > 0
  {
    size > 0 && exists address: nat :: from <= address && address % alignment == 0 && address + size <= to
  }

  lemma RoomIsTaken(a: Arena, size: nat, alignment: nat)
    requires alignment > 0
    ensures Allocate(a, size, alignment).0.At? <==> Room(a.base + a.offset, a.base + a.capacity, size, alignment)
  {
    if Room(a.base + a.offset, a.base + a.capacity, size, alignment) {
      var address: nat :| a.base + a.offset <= address && address % alignment == 0 &&
        address + size <= a.base + a.capacity;
      FirstMultiple(a.base + a.offset, alignment, address);
    }
  }

  class ArenaObject {
    const base: nat
    const capacity: nat
    var offset: nat

    /** The blocks handed out since the last reset. */
    ghost var taken: seq<Block>

    ghost predicate Valid()
      reads this
    {
      && offset <= capacity
      && (forall b <- taken :: b.At? && base <= b.address && b.address + b.size <= base + offset)
      && forall i, j :: 0 <= i < j < |taken| ==> Apart(taken[i], taken[j])
    }

    function View(): Arena
      reads this
    {
      Arena(base, capacity, offset)
    }

    constructor (base: nat, capacity: nat)
      ensures Valid() && View() == Arena(base, capacity, 0) && taken == []
    {
      this.base, this.capacity, this.offset, this.taken := base, capacity, 0, [];
    }

    /** A block is aligned, inside the buffer and apart from every block handed out before. There is none exactly when
        none fits behind those. */
    method Take(size: nat, alignment: nat) returns (b: Block)
      requires Valid() && alignment > 0
      modifies this
      ensures Valid() && (b, View()) == old(Allocate(View(), size, alignment))
      ensures b.At? <==> old(Room(base + offset, base + capacity, size, alignment))
      ensures b.At? ==>
        && b.size == size && b.address % alignment == 0 && base <= b.address
        && b.address + size <= base + capacity
      ensures b.At? ==> (forall earlier <- old(taken) :: Apart(earlier, b)) && taken == old(taken) + [b]
      ensures b.Null? ==> taken == old(taken) && offset == old(offset)
    {
      RoomIsTaken(View(), size, alignment);
      b := Null;
      if capacity != 0 && size != 0 {
        var address := AlignUp(base + offset, alignment);
        var start := address - base;
        if start + size <= capacity {
          offset := start + size;
          b := At(address, size);
          taken := taken + [b];
        }
      }
    }

    /** Every block is given back: whatever fits into the buffer at all can be taken again. */
    method Reset()
      modifies this
      ensures Valid() && View() == Arena(base, capacity, 0) && taken == []
      ensures forall size: nat, alignment: nat :: alignment > 0 && Room(base, base + capacity, size, alignment) ==>
        Allocate(View(), size, alignment).0.At?
    {
      offset := 0;
      taken := [];
      forall size: nat, alignment: nat | alignment > 0 && Room(base, base + capacity, size, alignment)
        ensures Allocate(View(), size, alignment).0.At?
      {
        RoomIsTaken(View(), size, alignment);
      }
    }
  }

  // ---- how much fits ----

  predicate Aligned(a: Arena) {
    (a.base + a.offset) % 8 == 0
  }

  /** The most the arena may have used once its next block is aligned. */
  function Reach(a: Arena): nat {
    a.offset + if Aligned(a) then 0 else 7
  }

  /** Word-sized blocks cost their size: only the first one pays for alignment. */
  lemma WordsFit(a: Arena, words: nat)
    requires words > 0 && Reach(a) + 8 * words <= a.capacity
    ensures var r := Allocate(a, 8 * words, 8); r.0.At? && Aligned(r.1) && Reach(r.1) <= Reach(a) + 8 * words
  {
    var x := a.base + a.offset;
    var address := AlignUp(x, 8);
    assert address <= x + 7;
    if Aligned(a) { FirstMultiple(x, 8, x); }
  }
}
