/** Shared vocabulary: results of fallible operations, and the row-major layout every tensor uses. */
module Base {

  datatype Option<+T> = None | Some(value: T)

  datatype Result<+T, +E> = Ok(value: T) | Err(error: E)

  type Byte = b: int | 0 <= b < 256

  type U32 = x: int | 0 <= x < 0x1_0000_0000

  function Min(x: int, y: int): int {
    if x < y then x else y
  }

  function Max(x: int, y: int): int {
    if x < y then y else x
  }
}

/**
 Row-major layout. `Flat` writes equally wide rows one after another; `Blocks` cuts a flat buffer back
 into rows. A three-dimensional tensor is the same thing done twice.
 */
module Layout {

  /** The first `n` rows, one after another. */
  function FlatTo<T>(rows: seq<seq<T>>, n: nat): seq<T>
    requires n <= |rows|
  {
    if n == 0 then [] else FlatTo(rows, n - 1) + rows[n - 1]
  }

  function Flat<T>(rows: seq<seq<T>>): seq<T> {
    FlatTo(rows, |rows|)
  }

  ghost predicate Wide<T>(rows: seq<seq<T>>, width: nat) {
    forall i :: 0 <= i < |rows| ==> |rows[i]| == width
  }

  lemma RowFits(i: nat, count: nat, width: nat)
    requires i < count
    ensures 0 <= i * width <= i * width + width <= count * width
    ensures (i + 1) * width == i * width + width
  {
    assert (i + 1) * width <= count * width;
  }

  /** `i * width`, counted up row by row as a loop does; keeps products out of loop proofs. */
  ghost function Offset(i: nat, width: nat): nat {
    if i == 0 then 0 else Offset(i - 1, width) + width
  }

  lemma {:induction false} OffsetIsProduct(i: nat, width: nat)
    ensures Offset(i, width) == i * width
  {
    if i > 0 { OffsetIsProduct(i - 1, width); }
  }

  /** Row `i` of a buffer of `count` rows. */
  function Block<T>(flat: seq<T>, width: nat, count: nat, i: nat): (row: seq<T>)
    requires |flat| == count * width && i < count
    ensures |row| == width
  {
    RowFits(i, count, width);
    flat[i * width..i * width + width]
  }

  function Blocks<T>(flat: seq<T>, width: nat, count: nat): (rows: seq<seq<T>>)
    requires |flat| == count * width
    ensures |rows| == count && Wide(rows, width)
  {
    seq(count, i requires 0 <= i < count => Block(flat, width, count, i))
  }

  lemma {:induction false} FlatToLength<T>(rows: seq<seq<T>>, width: nat, n: nat)
    requires Wide(rows, width) && n <= |rows|
    ensures |FlatTo(rows, n)| == n * width
  {
    if n > 0 {
      FlatToLength(rows, width, n - 1);
      RowFits(n - 1, n, width);
    }
  }

  lemma FlatLength<T>(rows: seq<seq<T>>, width: nat)
    requires Wide(rows, width)
    ensures |Flat(rows)| == |rows| * width
  {
    FlatToLength(rows, width, |rows|);
  }

  lemma {:induction false} FlatToRow<T>(rows: seq<seq<T>>, width: nat, n: nat, i: nat)
    requires Wide(rows, width) && i < n <= |rows|
    ensures i * width + width <= |FlatTo(rows, n)|
    ensures FlatTo(rows, n)[i * width..i * width + width] == rows[i]
  {
    FlatToLength(rows, width, n);
    FlatToLength(rows, width, n - 1);
    RowFits(i, n, width);
    if i < n - 1 {
      RowFits(i, n - 1, width);
      FlatToRow(rows, width, n - 1, i);
    }
  }

  /** A row of a flattened tensor sits at `i * width`. */
  lemma FlatBlock<T>(rows: seq<seq<T>>, width: nat, i: nat)
    requires Wide(rows, width) && i < |rows|
    ensures |Flat(rows)| == |rows| * width
    ensures Block(Flat(rows), width, |rows|, i) == rows[i]
  {
    FlatLength(rows, width);
    FlatToRow(rows, width, |rows|, i);
  }

  /** Cutting undoes flattening. */
  lemma BlocksOfFlat<T>(rows: seq<seq<T>>, width: nat)
    requires Wide(rows, width)
    ensures |Flat(rows)| == |rows| * width
    ensures Blocks(Flat(rows), width, |rows|) == rows
  {
    FlatLength(rows, width);
    forall i | 0 <= i < |rows| ensures Blocks(Flat(rows), width, |rows|)[i] == rows[i] {
      FlatBlock(rows, width, i);
    }
  }

  lemma {:induction false} FlatToOfBlocks<T>(flat: seq<T>, width: nat, count: nat, n: nat)
    requires |flat| == count * width && n <= count
    ensures n * width <= |flat| && FlatTo(Blocks(flat, width, count), n) == flat[..n * width]
  {
    if n > 0 {
      RowFits(n - 1, count, width);
      RowFits(n - 1, n, width);
      FlatToOfBlocks(flat, width, count, n - 1);
    }
  }

  /** Flattening undoes cutting. */
  lemma FlatOfBlocks<T>(flat: seq<T>, width: nat, count: nat)
    requires |flat| == count * width
    ensures Flat(Blocks(flat, width, count)) == flat
  {
    FlatToOfBlocks(flat, width, count, count);
  }

  lemma WidePrefix<T>(rows: seq<seq<T>>, width: nat, n: nat)
    requires Wide(rows, width) && n <= |rows|
    ensures Wide(rows[..n], width)
  {
  }

  lemma SliceOfSlice<T>(s: seq<T>, from: nat, to: nat, i: nat, j: nat)
    requires from <= to <= |s| && i <= j <= to - from
    ensures s[from..to][i..j] == s[from + i..from + j]
  {
    forall k | 0 <= k < j - i ensures s[from..to][i..j][k] == s[from + i..from + j][k] {
      assert s[from..to][i..j][k] == s[from..to][i + k] == s[from + i + k];
    }
  }
}

/** Finite counting facts about sequences without repetition. */
module Distinct {

  ghost predicate NoRepeats<T>(xs: seq<T>) {
    forall i, j :: 0 <= i < j < |xs| ==> xs[i] != xs[j]
  }

  ghost function Elements<T>(xs: seq<T>): set<T> {
    set x | x in xs
  }

  lemma {:induction false} ElementCount<T>(xs: seq<T>)
    requires NoRepeats(xs)
    ensures |Elements(xs)| == |xs|
  {
    if xs != [] {
      var last := |xs| - 1;
      ElementCount(xs[..last]);
      assert Elements(xs) == Elements(xs[..last]) + {xs[last]};
      assert xs[last] !in xs[..last];
    }
  }
}
