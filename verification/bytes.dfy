/** Byte strings and the fixed-width integers in them, low byte first. */
module Bytes {
  type byte = x: int | 0 <= x < 256
  type Data = seq<byte>

  const TWO32 := 0x1_0000_0000
  const TWO64 := 0x1_0000_0000_0000_0000

  type u32 = x: int | 0 <= x < TWO32
  type u64 = x: int | 0 <= x < TWO64
  type i32 = x: int | -TWO32 / 2 <= x < TWO32 / 2
  type i64 = x: int | -TWO64 / 2 <= x < TWO64 / 2

  function Pow256(width: nat): (p: nat)
    ensures p > 0
  {
    if width == 0 then 1 else 256 * Pow256(width - 1)
  }

  /** The `width` low bytes of `v`. */
  function Low(width: nat, v: nat): (s: Data)
    ensures |s| == width
  {
    if width == 0 then [] else [v % 256] + Low(width - 1, v / 256)
  }

  function Value(s: Data): (v: nat)
    ensures v < Pow256(|s|)
  {
    if s == [] then 0 else
    assert s[0] + 256 * Value(s[1..]) <= 255 + 256 * (Pow256(|s| - 1) - 1);
    s[0] + 256 * Value(s[1..])
  }

  lemma {:induction false} ValueLow(width: nat, v: nat)
    requires v < Pow256(width)
    ensures Value(Low(width, v)) == v
  {
    if width > 0 {
      assert v / 256 < Pow256(width - 1);
      ValueLow(width - 1, v / 256);
      assert Low(width, v)[1..] == Low(width - 1, v / 256);
    }
  }

  lemma Widths()
    ensures Pow256(4) == TWO32 && Pow256(8) == TWO64
  {
    assert Pow256(2) == 65536;
    assert Pow256(4) == 256 * (256 * Pow256(2));
    assert Pow256(6) == 256 * (256 * Pow256(4));
    assert Pow256(8) == 256 * (256 * Pow256(6));
  }

  /** A length or count cast to 32 bits. */
  function Cast32(n: nat): (r: u32) {
    n % TWO32
  }

  function U32(v: u32): (s: Data)
    ensures |s| == 4
  {
    Low(4, v)
  }

  function U64(v: u64): (s: Data)
    ensures |s| == 8
  {
    Low(8, v)
  }

  function I32(v: i32): (s: Data)
    ensures |s| == 4
  {
    Low(4, if v < 0 then v + TWO32 else v)
  }

  function I64(v: i64): (s: Data)
    ensures |s| == 8
  {
    Low(8, if v < 0 then v + TWO64 else v)
  }

  function ToU32(s: Data): (v: u32)
    requires |s| == 4
  {
    Widths(); Value(s)
  }

  function ToU64(s: Data): (v: u64)
    requires |s| == 8
  {
    Widths(); Value(s)
  }

  function ToI32(s: Data): (v: i32)
    requires |s| == 4
  {
    var n := ToU32(s);
    if n < TWO32 / 2 then n else n - TWO32
  }

  function ToI64(s: Data): (v: i64)
    requires |s| == 8
  {
    var n := ToU64(s);
    if n < TWO64 / 2 then n else n - TWO64
  }

  lemma Back32(v: u32)
    ensures ToU32(U32(v)) == v
  {
    Widths();
    ValueLow(4, v);
  }

  lemma Back64(v: u64)
    ensures ToU64(U64(v)) == v
  {
    Widths();
    ValueLow(8, v);
  }

  lemma BackI32(v: i32)
    ensures ToI32(I32(v)) == v
  {
    Widths();
    ValueLow(4, if v < 0 then v + TWO32 else v);
  }

  lemma BackI64(v: i64)
    ensures ToI64(I64(v)) == v
  {
    Widths();
    ValueLow(8, if v < 0 then v + TWO64 else v);
  }
}
