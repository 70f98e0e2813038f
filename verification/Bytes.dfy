/** Little-endian integers, as every binary format of the repository writes them. */
module Bytes {
  import opened Base
  import opened Layout

  function Pow256(width: nat): (p: nat)
    ensures p > 0
  {
    if width == 0 then 1 else 256 * Pow256(width - 1)
  }

  function Le(value: nat, width: nat): (bytes: seq<Byte>)
    ensures |bytes| == width
  {
    if width == 0 then [] else [value % 256] + Le(value / 256, width - 1)
  }

  function UnLe(bytes: seq<Byte>): (value: nat)
    ensures value < Pow256(|bytes|)
  {
    if bytes == [] then 0 else bytes[0] + 256 * UnLe(bytes[1..])
  }

  /** Reading back what was written. */
  lemma {:induction false} UnLeOfLe(value: nat, width: nat)
    requires value < Pow256(width)
    ensures UnLe(Le(value, width)) == value
  {
    if width > 0 {
      UnLeOfLe(value / 256, width - 1);
      assert Le(value, width)[1..] == Le(value / 256, width - 1);
    }
  }

  /** Writing again what was read. */
  lemma {:induction false} LeOfUnLe(bytes: seq<Byte>)
    ensures Le(UnLe(bytes), |bytes|) == bytes
  {
    if bytes != [] {
      LeOfUnLe(bytes[1..]);
      assert UnLe(bytes) % 256 == bytes[0] && UnLe(bytes) / 256 == UnLe(bytes[1..]);
    }
  }

  lemma Widths()
    ensures Pow256(1) == 0x100 && Pow256(2) == 0x1_0000 && Pow256(4) == 0x1_0000_0000
    ensures Pow256(8) == 0x1_0000_0000_0000_0000
  {
    assert Pow256(3) == 0x100_0000;
    assert Pow256(5) == 0x100_0000_0000;
    assert Pow256(6) == 0x1_0000_0000_0000;
    assert Pow256(7) == 0x100_0000_0000_0000;
  }

  const U32_END: nat := 0x1_0000_0000
  const U64_END: nat := 0x1_0000_0000_0000_0000

  function Le32(value: nat): seq<Byte> { Le(value, 4) }

  function Le64(value: nat): seq<Byte> { Le(value, 8) }

  lemma Le32RoundTrip(value: nat)
    requires value < U32_END
    ensures UnLe(Le32(value)) == value
  {
    Widths();
    UnLeOfLe(value, 4);
  }

  lemma UnLe32(bytes: seq<Byte>)
    requires |bytes| == 4
    ensures UnLe(bytes) < U32_END && Le32(UnLe(bytes)) == bytes
  {
    Widths();
    LeOfUnLe(bytes);
  }

  /** An f32 is kept as its bit pattern: exponent all ones means infinite or NaN. */
  predicate Finite(bits: nat) {
    (bits / 0x80_0000) % 0x100 != 0xFF
  }

  /** Finite and greater than zero: sign bit clear and some other bit set. */
  predicate FinitePositive(bits: nat) {
    Finite(bits) && 0 < bits < 0x8000_0000
  }

  /** Equally wide integers one after another. */
  function Cells(values: seq<nat>, width: nat): (cells: seq<seq<Byte>>)
    ensures |cells| == |values| && Wide(cells, width)
  {
    seq(|values|, i requires 0 <= i < |values| => Le(values[i], width))
  }

  function Words(values: seq<nat>, width: nat): seq<Byte> {
    Flat(Cells(values, width))
  }

  function Unwords(bytes: seq<Byte>, width: nat, count: nat): (values: seq<nat>)
    requires |bytes| == count * width
    ensures |values| == count && forall i :: 0 <= i < count ==> values[i] < Pow256(width)
  {
    seq(count, i requires 0 <= i < count => UnLe(Block(bytes, width, count, i)))
  }

  lemma UnwordsOfWords(values: seq<nat>, width: nat)
    requires forall i :: 0 <= i < |values| ==> values[i] < Pow256(width)
    ensures |Words(values, width)| == |values| * width
    ensures Unwords(Words(values, width), width, |values|) == values
  {
    FlatLength(Cells(values, width), width);
    forall i | 0 <= i < |values| ensures Unwords(Words(values, width), width, |values|)[i] == values[i] {
      FlatBlock(Cells(values, width), width, i);
      UnLeOfLe(values[i], width);
    }
  }

  lemma WordsOfUnwords(bytes: seq<Byte>, width: nat, count: nat)
    requires |bytes| == count * width
    ensures Words(Unwords(bytes, width, count), width) == bytes
  {
    var values := Unwords(bytes, width, count);
    forall i | 0 <= i < count ensures Cells(values, width)[i] == Blocks(bytes, width, count)[i] {
      LeOfUnLe(Block(bytes, width, count, i));
    }
    assert Cells(values, width) == Blocks(bytes, width, count);
    FlatOfBlocks(bytes, width, count);
  }
}
