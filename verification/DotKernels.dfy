/**
 Dot products of quantized activations with signed weights (`crates/marian-cpu/src/q8_arm.rs`): the SDOT walk, the
 stable and the relaxed SIMD forms all equal the plain sum, with wrapping 32-bit lanes that never wrap.
 */
module DotKernels {
  import opened Base

  type I8 = x: int | -128 <= x < 128
  type I32 = x: int | -0x8000_0000 <= x < 0x8000_0000

  const ACTIVATION_ZERO_POINT: int := 127
  const LARGEST_TERM: int := 16_256
  const LARGEST_LANE: int := 65_024

  /** The longest rows the kernels are exact for. */
  const ELEMENTS_END: nat := 0x2_0000

  /** What quantization produces: a signed value from -127 to 127, shifted by 127. */
  type Activation = x: int | 0 <= x <= 254

  /** The tail of `quantize_symmetric_u8_into`, after rounding to an integer. */
  function Quantized(rounded: int): (a: Activation)
    ensures -127 <= rounded <= 127 ==> a - ACTIVATION_ZERO_POINT == rounded
    ensures rounded < -127 ==> a == 0
    ensures rounded > 127 ==> a == 254
  {
    Max(-127, Min(127, rounded)) + ACTIVATION_ZERO_POINT
  }

  // ---------------------------------------------------------------------------------- the plain sum

  function Term(a: Activation, w: I8): (t: int)
    ensures -LARGEST_TERM <= t <= LARGEST_TERM
  {
    TermBound(a - ACTIVATION_ZERO_POINT, w);
    (a - ACTIVATION_ZERO_POINT) * w
  }

  lemma TermBound(c: int, w: I8)
    requires -127 <= c <= 127
    ensures -LARGEST_TERM <= c * w <= LARGEST_TERM
  {
    if c >= 0 {
      Scaled(-128, w, c);
      Scaled(w, 127, c);
    } else {
      Scaled(-128, w, 0 - c);
      Scaled(w, 127, 0 - c);
      assert c * w == 0 - (0 - c) * w;
    }
  }

  lemma Scaled(x: int, y: int, c: nat)
    requires x <= y
    ensures x * c <= y * c && x * c == c * x && y * c == c * y
  {
  }

  /** The sum from element `from` up to `end`. */
  function Dot(a: seq<Activation>, w: seq<I8>, from: nat, end: nat): (d: int)
    requires from <= end <= |a| <= |w|
    ensures 0 - (end - from) * LARGEST_TERM <= d <= (end - from) * LARGEST_TERM
    decreases end - from
  {
    if from == end then 0 else Dot(a, w, from, end - 1) + Term(a[end - 1], w[end - 1])
  }

  lemma {:induction false} DotSplits(a: seq<Activation>, w: seq<I8>, from: nat, middle: nat, end: nat)
    requires from <= middle <= end <= |a| <= |w|
    ensures Dot(a, w, from, end) == Dot(a, w, from, middle) + Dot(a, w, middle, end)
    decreases end
  {
    if middle < end { DotSplits(a, w, from, middle, end - 1); }
  }

  /** `dot_u8_i8_scalar` from `from` on; every partial sum fits. */
  method ScalarDot(a: seq<Activation>, w: seq<I8>, from: nat) returns (sum: I32)
    requires |a| == |w| <= ELEMENTS_END && from <= |a|
    ensures sum == Dot(a, w, from, |a|)
  {
    sum := 0;
    for i := from to |a|
      invariant sum == Dot(a, w, from, i)
    {
      assert -0x8000_0000 <= Dot(a, w, from, i + 1) < 0x8000_0000;
      sum := sum + Term(a[i], w[i]);
    }
  }

  // ---------------------------------------------------------------------------------- centered lanes

  /** Subtraction in an unsigned byte lane, read as signed. */
  function CenteredLane(b: Byte): I8 {
    (b - ACTIVATION_ZERO_POINT + 128) % 256 - 128
  }

  /** The lane is exact for every byte except 255, which quantization never produces. */
  lemma CenteredIsExact(b: Byte)
    ensures CenteredLane(b) == b - ACTIVATION_ZERO_POINT <==> b <= 254
  {
  }

  // ---------------------------------------------------------------------------------- sixteen elements

  function Wrap16(x: int): int {
    (x + 0x8000) % 0x1_0000 - 0x8000
  }

  function Wrap32(x: int): I32 {
    (x + 0x8000_0000) % 0x1_0000_0000 - 0x8000_0000
  }

  /** What sixteen elements add to the four lanes of an accumulator. */
  type Lanes = (seq<Activation>, seq<I8>) -> seq<int>

  function Product(a: Activation, w: I8): int {
    CenteredLane(a) * w
  }

  /** One SDOT: each lane takes four neighbouring products. */
  function SdotLane(a: seq<Activation>, w: seq<I8>, l: nat): int
    requires |a| == |w| == 16 && l < 4
  {
    Product(a[4 * l], w[4 * l]) + Product(a[4 * l + 1], w[4 * l + 1]) + Product(a[4 * l + 2], w[4 * l + 2])
    + Product(a[4 * l + 3], w[4 * l + 3])
  }

  function SdotLanes(): Lanes {
    (a: seq<Activation>, w: seq<I8>) =>
      if |a| == 16 && |w| == 16 then [SdotLane(a, w, 0), SdotLane(a, w, 1), SdotLane(a, w, 2), SdotLane(a, w, 3)] else []
  }

  /** Products of sixteen bits, then pairwise sums of the lower and of the upper half. */
  function StableLane(a: seq<Activation>, w: seq<I8>, l: nat): int
    requires |a| == |w| == 16 && l < 4
  {
    Wrap32(Wrap16(Product(a[2 * l], w[2 * l])) + Wrap16(Product(a[2 * l + 1], w[2 * l + 1]))
           + (Wrap16(Product(a[8 + 2 * l], w[8 + 2 * l])) + Wrap16(Product(a[9 + 2 * l], w[9 + 2 * l]))))
  }

  function StableLanes(): Lanes {
    (a: seq<Activation>, w: seq<I8>) =>
      if |a| == 16 && |w| == 16 then [StableLane(a, w, 0), StableLane(a, w, 1), StableLane(a, w, 2), StableLane(a, w, 3)] else []
  }

  /** How a machine narrows pair sums to sixteen bits: by wrapping, by saturating, or otherwise. */
  type Narrowing = int -> int

  ghost predicate KeepsSixteenBits(narrow: Narrowing) {
    forall x :: -0x8000 <= x < 0x8000 ==> narrow(x) == x
  }

  /** One relaxed dot: pairs of products are narrowed to sixteen bits before they are added up. */
  function RelaxedLane(narrow: Narrowing, a: seq<Activation>, w: seq<I8>, l: nat): int
    requires |a| == |w| == 16 && l < 4
  {
    narrow(Product(a[4 * l], w[4 * l]) + Product(a[4 * l + 1], w[4 * l + 1]))
    + narrow(Product(a[4 * l + 2], w[4 * l + 2]) + Product(a[4 * l + 3], w[4 * l + 3]))
  }

  function RelaxedLanes(narrow: Narrowing): Lanes {
    (a: seq<Activation>, w: seq<I8>) =>
      if |a| == 16 && |w| == 16
      then [RelaxedLane(narrow, a, w, 0), RelaxedLane(narrow, a, w, 1), RelaxedLane(narrow, a, w, 2), RelaxedLane(narrow, a, w, 3)]
      else []
  }

  /** Weights so small that four terms stay within `limit`. */
  ghost predicate Small(w: seq<I8>, limit: int) {
    0 <= limit <= LARGEST_LANE && forall i :: 0 <= i < |w| ==> -limit <= 508 * w[i] <= limit
  }

  /** Four lanes that add up to the sixteen terms, each within the limit of four terms. */
  ghost predicate ExactOn(lanes: Lanes, a: seq<Activation>, w: seq<I8>, limit: int)
    requires |a| == |w| == 16
  {
    var v := lanes(a, w);
    && |v| == 4 && v[0] + v[1] + v[2] + v[3] == Dot(a, w, 0, 16)
    && forall l :: 0 <= l < 4 ==> -limit <= v[l] <= limit
  }

  ghost predicate Exact(lanes: Lanes, limit: int) {
    forall a, w :: |a| == |w| == 16 && Small(w, limit) ==> ExactOn(lanes, a, w, limit)
  }

  /** A product of a small weight is a quarter of the limit at most. */
  lemma ProductWithin(a: Activation, w: I8, limit: int)
    requires -limit <= 508 * w <= limit
    ensures Product(a, w) == Term(a, w) && -limit <= 4 * Product(a, w) <= limit && Wrap16(Product(a, w)) == Product(a, w)
  {
    var c: int := a - ACTIVATION_ZERO_POINT;
    if w >= 0 { Scaled(-127, c, w); Scaled(c, 127, w); } else { Scaled(-127, c, 0 - w); Scaled(c, 127, 0 - w); assert c * w == 0 - c * (0 - w); }
  }

  lemma FourTerms(a: seq<Activation>, w: seq<I8>, from: nat)
    requires from + 4 <= |a| <= |w|
    ensures Dot(a, w, from, from + 4) == Product(a[from], w[from]) + Product(a[from + 1], w[from + 1])
                                         + Product(a[from + 2], w[from + 2]) + Product(a[from + 3], w[from + 3])
  {
    assert Dot(a, w, from, from + 1) == Dot(a, w, from, from) + Term(a[from], w[from]);
    assert Dot(a, w, from, from + 2) == Dot(a, w, from, from + 1) + Term(a[from + 1], w[from + 1]);
    assert Dot(a, w, from, from + 3) == Dot(a, w, from, from + 2) + Term(a[from + 2], w[from + 2]);
    assert Dot(a, w, from, from + 4) == Dot(a, w, from, from + 3) + Term(a[from + 3], w[from + 3]);
  }

  lemma SixteenTerms(a: seq<Activation>, w: seq<I8>)
    requires |a| == |w| == 16
    ensures Dot(a, w, 0, 16) == Dot(a, w, 0, 4) + Dot(a, w, 4, 8) + Dot(a, w, 8, 12) + Dot(a, w, 12, 16)
  {
    DotSplits(a, w, 0, 4, 16);
    DotSplits(a, w, 4, 8, 16);
    DotSplits(a, w, 8, 12, 16);
  }

  lemma SixteenProducts(a: seq<Activation>, w: seq<I8>)
    requires |a| == |w| == 16
    ensures Dot(a, w, 0, 16)
            == Product(a[0], w[0]) + Product(a[1], w[1]) + Product(a[2], w[2]) + Product(a[3], w[3])
               + Product(a[4], w[4]) + Product(a[5], w[5]) + Product(a[6], w[6]) + Product(a[7], w[7])
               + Product(a[8], w[8]) + Product(a[9], w[9]) + Product(a[10], w[10]) + Product(a[11], w[11])
               + Product(a[12], w[12]) + Product(a[13], w[13]) + Product(a[14], w[14]) + Product(a[15], w[15])
  {
    SixteenTerms(a, w);
    FourTerms(a, w, 0);
    FourTerms(a, w, 4);
    FourTerms(a, w, 8);
    FourTerms(a, w, 12);
  }

  lemma SdotLaneWithin(a: seq<Activation>, w: seq<I8>, l: nat, limit: int)
    requires |a| == |w| == 16 && l < 4 && Small(w, limit)
    ensures -limit <= SdotLane(a, w, l) <= limit
  {
    ProductWithin(a[4 * l], w[4 * l], limit);
    ProductWithin(a[4 * l + 1], w[4 * l + 1], limit);
    ProductWithin(a[4 * l + 2], w[4 * l + 2], limit);
    ProductWithin(a[4 * l + 3], w[4 * l + 3], limit);
  }

  lemma SdotIsExact(limit: int)
    ensures Exact(SdotLanes(), limit)
  {
    forall a: seq<Activation>, w: seq<I8> | |a| == |w| == 16 && Small(w, limit) ensures ExactOn(SdotLanes(), a, w, limit) {
      SixteenProducts(a, w);
      SdotLaneWithin(a, w, 0, limit);
      SdotLaneWithin(a, w, 1, limit);
      SdotLaneWithin(a, w, 2, limit);
      SdotLaneWithin(a, w, 3, limit);
    }
  }

  /** A pair of centred activations times weights fits sixteen bits; times seven-bit weights it is at most 32,258. */
  lemma PairFits(a: Activation, b: Activation, v: I8, w: I8)
    ensures -0x8000 <= Product(a, v) + Product(b, w) < 0x8000
    ensures v >= 0 && w >= 0 ==> -32_258 <= Product(a, v) + Product(b, w) <= 32_258
  {
    ProductWithin(a, v, LARGEST_LANE);
    ProductWithin(b, w, LARGEST_LANE);
    if v >= 0 && w >= 0 {
      ProductWithin(a, v, 508 * 127);
      ProductWithin(b, w, 508 * 127);
    }
  }

  /** Narrowing changes nothing, so the relaxed dot is the SDOT. */
  lemma RelaxedIsSdot(narrow: Narrowing, a: seq<Activation>, w: seq<I8>)
    requires KeepsSixteenBits(narrow) && |a| == |w| == 16
    ensures RelaxedLanes(narrow)(a, w) == SdotLanes()(a, w)
  {
    forall l: nat | l < 4 ensures RelaxedLane(narrow, a, w, l) == SdotLane(a, w, l) {
      PairFits(a[4 * l], a[4 * l + 1], w[4 * l], w[4 * l + 1]);
      PairFits(a[4 * l + 2], a[4 * l + 3], w[4 * l + 2], w[4 * l + 3]);
    }
  }

  lemma RelaxedIsExact(narrow: Narrowing, limit: int)
    requires KeepsSixteenBits(narrow)
    ensures Exact(RelaxedLanes(narrow), limit)
  {
    SdotIsExact(limit);
    forall a: seq<Activation>, w: seq<I8> | |a| == |w| == 16 && Small(w, limit) ensures ExactOn(RelaxedLanes(narrow), a, w, limit) {
      RelaxedIsSdot(narrow, a, w);
      assert ExactOn(SdotLanes(), a, w, limit);
    }
  }

  lemma StableLaneIsExact(a: seq<Activation>, w: seq<I8>, l: nat, limit: int)
    requires |a| == |w| == 16 && l < 4 && Small(w, limit)
    ensures StableLane(a, w, l) == Product(a[2 * l], w[2 * l]) + Product(a[2 * l + 1], w[2 * l + 1])
                                   + Product(a[8 + 2 * l], w[8 + 2 * l]) + Product(a[9 + 2 * l], w[9 + 2 * l])
    ensures -limit <= StableLane(a, w, l) <= limit
  {
    ProductWithin(a[2 * l], w[2 * l], limit);
    ProductWithin(a[2 * l + 1], w[2 * l + 1], limit);
    ProductWithin(a[8 + 2 * l], w[8 + 2 * l], limit);
    ProductWithin(a[9 + 2 * l], w[9 + 2 * l], limit);
  }

  lemma StableIsExact(limit: int)
    ensures Exact(StableLanes(), limit)
  {
    forall a: seq<Activation>, w: seq<I8> | |a| == |w| == 16 && Small(w, limit) ensures ExactOn(StableLanes(), a, w, limit) {
      SixteenProducts(a, w);
      StableLaneIsExact(a, w, 0, limit);
      StableLaneIsExact(a, w, 1, limit);
      StableLaneIsExact(a, w, 2, limit);
      StableLaneIsExact(a, w, 3, limit);
    }
  }

  // ---------------------------------------------------------------------------------- four accumulators

  type Vector = v: seq<I32> | |v| == 4 witness seq(4, _ => 0)

  function Zeros(): Vector {
    [0, 0, 0, 0]
  }

  /** Adds a chunk's lanes, wrapping. */
  function AddLanes(v: Vector, lanes: seq<int>): Vector
    requires |lanes| == 4
  {
    seq(4, l requires 0 <= l < 4 => Accumulated(v[l], lanes[l]))
  }

  function Accumulated(x: int, y: int): I32 {
    Wrap32(x + y)
  }

  function Lanewise(v: Vector, u: Vector): Vector {
    seq(4, l requires 0 <= l < 4 => Accumulated(v[l], u[l]))
  }

  function LaneSum(v: Vector): int {
    var a: int, b: int, c: int, d: int := v[0], v[1], v[2], v[3];
    a + b + c + d
  }

  ghost predicate Within(v: Vector, bound: int) {
    forall l :: 0 <= l < 4 ==> -bound <= v[l] <= bound
  }

  /** The bound of a lane after `n` chunks. */
  ghost function Bound(limit: int, n: nat): int {
    if n == 0 then 0 else Bound(limit, n - 1) + limit
  }

  lemma {:induction false} BoundAdds(limit: int, c: nat, d: nat)
    ensures Bound(limit, c + d) == Bound(limit, c) + Bound(limit, d)
  {
    if d > 0 { BoundAdds(limit, c, d - 1); }
  }

  lemma {:induction false} BoundGrows(limit: int, n: nat, end: nat)
    requires limit >= 0 && n <= end
    ensures 0 <= Bound(limit, n) <= Bound(limit, end)
  {
    if n < end { BoundGrows(limit, n, end - 1); } else if n > 0 { BoundGrows(limit, n - 1, end - 1); }
  }

  lemma {:induction false} BoundIsProduct(limit: int, n: nat)
    ensures Bound(limit, n) == limit * n
  {
    if n > 0 { BoundIsProduct(limit, n - 1); }
  }

  /** The most chunks there are. */
  lemma BoundLimit(limit: int, n: nat)
    requires 0 <= limit <= LARGEST_LANE && n <= 8192
    ensures 0 <= Bound(limit, n) <= 8192 * limit
  {
    BoundGrows(limit, n, 8192);
    BoundIsProduct(limit, 8192);
  }

  ghost function Taken(counts: seq<nat>): nat
    requires |counts| == 4
  {
    counts[0] + counts[1] + counts[2] + counts[3]
  }

  ghost function LaneOf(v: seq<int>, l: nat): int {
    if l < |v| then v[l] else 0
  }

  /** What lane `l` of all accumulators together must hold after `n` chunks. */
  ghost function Column(a: seq<Activation>, w: seq<I8>, lanes: Lanes, l: nat, n: nat): int
    requires 16 * n <= |a| <= |w|
  {
    if n == 0 then 0
    else Column(a, w, lanes, l, n - 1) + LaneOf(lanes(a[16 * (n - 1)..16 * (n - 1) + 16], w[16 * (n - 1)..16 * (n - 1) + 16]), l)
  }

  ghost function Across(vs: seq<Vector>, l: nat): int
    requires |vs| == 4 && l < 4
  {
    var p: int, q: int, r: int, s: int := vs[0][l], vs[1][l], vs[2][l], vs[3][l];
    p + q + r + s
  }

  /** Four accumulators that have taken `counts` chunks each, together the first `n`. */
  ghost predicate Accumulators(a: seq<Activation>, w: seq<I8>, lanes: Lanes, limit: int, vs: seq<Vector>, counts: seq<nat>, n: nat) {
    && |vs| == |counts| == 4 && 16 * n <= |a| == |w| <= ELEMENTS_END && Small(w, limit) && Taken(counts) == n
    && (forall j :: 0 <= j < 4 ==> Within(vs[j], Bound(limit, counts[j])))
    && (forall l: nat :: l < 4 ==> Holds(a, w, lanes, vs, l, n))
  }

  /** Lane `l` of the accumulators holds its column. */
  ghost predicate Holds(a: seq<Activation>, w: seq<I8>, lanes: Lanes, vs: seq<Vector>, l: nat, n: nat)
    requires 16 * n <= |a| <= |w| && |vs| == 4 && l < 4
  {
    Across(vs, l) == Column(a, w, lanes, l, n)
  }

  /** A slice has its own plain sum. */
  lemma {:induction false} DotOfSlice(a: seq<Activation>, w: seq<I8>, offset: nat, n: nat)
    requires n <= 16 && offset + 16 <= |a| <= |w|
    ensures Dot(a[offset..offset + 16], w[offset..offset + 16], 0, n) == Dot(a, w, offset, offset + n)
  {
    if n > 0 { DotOfSlice(a, w, offset, n - 1); }
  }

  lemma AddedExactly(x: int, y: int)
    requires -0x8000_0000 <= x + y < 0x8000_0000
    ensures Accumulated(x, y) == x + y
  {
  }

  lemma AddIsExact(v: Vector, lanes: seq<int>, bound: int, limit: int)
    requires |lanes| == 4 && Within(v, bound) && bound + limit < 0x8000_0000
    requires forall l :: 0 <= l < 4 ==> -limit <= lanes[l] <= limit
    ensures Within(AddLanes(v, lanes), bound + limit)
    ensures forall l :: 0 <= l < 4 ==> AddLanes(v, lanes)[l] == var x: int := v[l]; x + lanes[l]
  {
    forall l: nat | l < 4 ensures AddLanes(v, lanes)[l] == var x: int := v[l]; x + lanes[l] {
      AddedExactly(v[l], lanes[l]);
    }
  }

  lemma AcrossUpdate(vs: seq<Vector>, j: nat, v: Vector, l: nat)
    requires |vs| == 4 && j < 4 && l < 4
    ensures Across(vs[j := v], l) == var x: int, y: int := vs[j][l], v[l]; Across(vs, l) - x + y
  {
  }

  lemma TakenUpdate(counts: seq<nat>, j: nat)
    requires |counts| == 4 && j < 4
    ensures Taken(counts[j := counts[j] + 1]) == Taken(counts) + 1 && counts[j] <= Taken(counts)
  {
  }

  lemma TakesChunk(a: seq<Activation>, w: seq<I8>, lanes: Lanes, limit: int, vs: seq<Vector>, counts: seq<nat>, n: nat, j: nat, v: seq<int>)
    requires Accumulators(a, w, lanes, limit, vs, counts, n) && j < 4 && 16 * n + 16 <= |a| && |v| == 4
    requires forall l :: 0 <= l < 4 ==> -limit <= v[l] <= limit
    requires v == lanes(a[16 * n..16 * n + 16], w[16 * n..16 * n + 16])
    ensures Accumulators(a, w, lanes, limit, vs[j := AddLanes(vs[j], v)], counts[j := counts[j] + 1], n + 1)
  {
    TakenUpdate(counts, j);
    BoundLimit(limit, counts[j]);
    AddIsExact(vs[j], v, Bound(limit, counts[j]), limit);
    var after, next := vs[j := AddLanes(vs[j], v)], n + 1;
    forall l: nat | l < 4 ensures Holds(a, w, lanes, after, l, next) {
      assert Holds(a, w, lanes, vs, l, n);
      AcrossUpdate(vs, j, AddLanes(vs[j], v), l);
    }
  }

  /** One chunk into accumulator `j`. */
  method TakeChunk(a: seq<Activation>, w: seq<I8>, lanes: Lanes, ghost limit: int, before: seq<Vector>, ghost taken: seq<nat>, n: nat, j: nat)
    returns (vs: seq<Vector>, ghost counts: seq<nat>, next: nat)
    requires Exact(lanes, limit) && Accumulators(a, w, lanes, limit, before, taken, n) && j < 4 && 16 * n + 16 <= |a|
    ensures next == n + 1 && Accumulators(a, w, lanes, limit, vs, counts, next)
  {
    var v := lanes(a[16 * n..16 * n + 16], w[16 * n..16 * n + 16]);
    assert ExactOn(lanes, a[16 * n..16 * n + 16], w[16 * n..16 * n + 16], limit);
    TakesChunk(a, w, lanes, limit, before, taken, n, j, v);
    vs := before[j := AddLanes(before[j], v)];
    counts := taken[j := taken[j] + 1];
    next := n + 1;
  }

  lemma StartsEmpty(a: seq<Activation>, w: seq<I8>, lanes: Lanes, limit: int)
    requires Small(w, limit) && |a| == |w| <= ELEMENTS_END
    ensures Accumulators(a, w, lanes, limit, [Zeros(), Zeros(), Zeros(), Zeros()], [0, 0, 0, 0], 0)
  {
  }

  /** Chunks of sixteen: four accumulators in turn over blocks of 64, then the first one over what is left. */
  method Accumulate(a: seq<Activation>, w: seq<I8>, lanes: Lanes, ghost limit: int)
    returns (vs: seq<Vector>, n: nat, ghost counts: seq<nat>)
    requires Exact(lanes, limit) && Small(w, limit) && |a| == |w| <= ELEMENTS_END
    ensures Accumulators(a, w, lanes, limit, vs, counts, n) && 16 * n <= |a| < 16 * n + 16
  {
    vs, counts, n := WholeBlocks(a, w, lanes, limit);
    while 16 * n + 16 <= |a|
      invariant 16 * n <= |a| && Accumulators(a, w, lanes, limit, vs, counts, n)
      decreases |a| - 16 * n
    {
      vs, counts, n := TakeChunk(a, w, lanes, limit, vs, counts, n, 0);
    }
  }

  method WholeBlocks(a: seq<Activation>, w: seq<I8>, lanes: Lanes, ghost limit: int)
    returns (vs: seq<Vector>, ghost counts: seq<nat>, n: nat)
    requires Exact(lanes, limit) && Small(w, limit) && |a| == |w| <= ELEMENTS_END
    ensures Accumulators(a, w, lanes, limit, vs, counts, n) && 16 * n <= |a| < 16 * n + 64
  {
    vs, n, counts := [Zeros(), Zeros(), Zeros(), Zeros()], 0, [0, 0, 0, 0];
    StartsEmpty(a, w, lanes, limit);
    while 16 * n + 64 <= |a|
      invariant 16 * n <= |a| && Accumulators(a, w, lanes, limit, vs, counts, n)
      decreases |a| - 16 * n
    {
      vs, counts, n := Block(a, w, lanes, limit, vs, counts, n);
    }
  }

  method Block(a: seq<Activation>, w: seq<I8>, lanes: Lanes, ghost limit: int, before: seq<Vector>, ghost taken: seq<nat>, start: nat)
    returns (vs: seq<Vector>, ghost counts: seq<nat>, n: nat)
    requires Exact(lanes, limit) && Accumulators(a, w, lanes, limit, before, taken, start) && 16 * start + 64 <= |a|
    ensures n == start + 4 && Accumulators(a, w, lanes, limit, vs, counts, n)
  {
    vs, counts, n := before, taken, start;
    for j := 0 to 4
      invariant n == start + j && Accumulators(a, w, lanes, limit, vs, counts, n)
    {
      vs, counts, n := TakeChunk(a, w, lanes, limit, vs, counts, n, j);
    }
  }

  // ---------------------------------------------------------------------------------- what the lanes mean

  lemma ChunkSum(a: seq<Activation>, w: seq<I8>, lanes: Lanes, limit: int, offset: nat)
    requires Exact(lanes, limit) && Small(w, limit) && offset + 16 <= |a| <= |w|
    ensures var v := lanes(a[offset..offset + 16], w[offset..offset + 16]);
            && |v| == 4 && (forall l :: 0 <= l < 4 ==> -limit <= v[l] <= limit)
            && Dot(a, w, 0, offset + 16) == Dot(a, w, 0, offset) + v[0] + v[1] + v[2] + v[3]
  {
    assert ExactOn(lanes, a[offset..offset + 16], w[offset..offset + 16], limit);
    DotOfSlice(a, w, offset, 16);
    DotSplits(a, w, 0, offset, offset + 16);
  }

  /** The four columns add up to the plain sum, and each stays within its bound. */
  lemma {:induction false} ColumnsSum(a: seq<Activation>, w: seq<I8>, lanes: Lanes, limit: int, n: nat)
    requires Exact(lanes, limit) && Small(w, limit) && 16 * n <= |a| <= |w|
    ensures Column(a, w, lanes, 0, n) + Column(a, w, lanes, 1, n) + Column(a, w, lanes, 2, n) + Column(a, w, lanes, 3, n)
            == Dot(a, w, 0, 16 * n)
    ensures forall l: nat :: l < 4 ==> -Bound(limit, n) <= Column(a, w, lanes, l, n) <= Bound(limit, n)
  {
    if n > 0 {
      ColumnsSum(a, w, lanes, limit, n - 1);
      ChunkSum(a, w, lanes, limit, 16 * (n - 1));
      assert Bound(limit, n) == Bound(limit, n - 1) + limit;
    }
  }

  // ---------------------------------------------------------------------------------- folding

  lemma LanewiseIsExact(v: Vector, u: Vector, b: int, c: int)
    requires Within(v, b) && Within(u, c) && b + c < 0x8000_0000
    ensures Within(Lanewise(v, u), b + c)
    ensures forall l :: 0 <= l < 4 ==> Lanewise(v, u)[l] == var x: int, y: int := v[l], u[l]; x + y
  {
    forall l: nat | l < 4 ensures Lanewise(v, u)[l] == var x: int, y: int := v[l], u[l]; x + y {
      AddedExactly(v[l], u[l]);
    }
  }

  /** The four lanes added up in 32 bits; no partial sum wraps. */
  method AcrossLanes(v: Vector, ghost bound: int) returns (sum: I32)
    requires Within(v, bound) && 4 * bound < 0x8000_0000
    ensures sum == LaneSum(v)
  {
    var a: int, b: int, c: int, d: int := v[0], v[1], v[2], v[3];
    var first: I32 := a + b;
    var second: I32 := first + c;
    sum := second + d;
  }

  lemma FourBounds(limit: int, counts: seq<nat>)
    requires |counts| == 4 && 0 <= limit <= LARGEST_LANE && Taken(counts) <= 8192
    ensures var b := seq(4, j requires 0 <= j < 4 => Bound(limit, counts[j]));
            && b[0] >= 0 && b[1] >= 0 && b[2] >= 0 && b[3] >= 0 && b[0] + b[1] + b[2] + b[3] <= 8192 * limit
  {
    BoundAdds(limit, counts[0], counts[1]);
    BoundAdds(limit, counts[0] + counts[1], counts[2]);
    BoundAdds(limit, counts[0] + counts[1] + counts[2], counts[3]);
    BoundLimit(limit, Taken(counts));
    BoundGrows(limit, counts[0], counts[0]);
    BoundGrows(limit, counts[1], counts[1]);
    BoundGrows(limit, counts[2], counts[2]);
    BoundGrows(limit, counts[3], counts[3]);
  }

  /** A vector that holds the columns. */
  ghost predicate HoldsColumns(a: seq<Activation>, w: seq<I8>, lanes: Lanes, v: Vector, n: nat)
    requires 16 * n <= |a| <= |w|
  {
    forall l: nat :: l < 4 ==> v[l] == Column(a, w, lanes, l, n)
  }

  /** The accumulators folded one after another, as the SIMD paths do, or in pairs, as the SDOT path does. */
  method Reduce(a: seq<Activation>, w: seq<I8>, ghost lanes: Lanes, ghost limit: int, vs: seq<Vector>, ghost counts: seq<nat>, ghost n: nat,
                inPairs: bool)
    returns (v: Vector)
    requires Accumulators(a, w, lanes, limit, vs, counts, n)
    ensures HoldsColumns(a, w, lanes, v, n)
  {
    FourBounds(limit, counts);
    assert Holds(a, w, lanes, vs, 0, n) && Holds(a, w, lanes, vs, 1, n) && Holds(a, w, lanes, vs, 2, n) && Holds(a, w, lanes, vs, 3, n);
    ghost var b := seq(4, j requires 0 <= j < 4 => Bound(limit, counts[j]));
    LanewiseIsExact(vs[0], vs[1], b[0], b[1]);
    var front := Lanewise(vs[0], vs[1]);
    if inPairs {
      LanewiseIsExact(vs[2], vs[3], b[2], b[3]);
      LanewiseIsExact(front, Lanewise(vs[2], vs[3]), b[0] + b[1], b[2] + b[3]);
      v := Lanewise(front, Lanewise(vs[2], vs[3]));
    } else {
      LanewiseIsExact(front, vs[2], b[0] + b[1], b[2]);
      LanewiseIsExact(Lanewise(front, vs[2]), vs[3], b[0] + b[1] + b[2], b[3]);
      v := Lanewise(Lanewise(front, vs[2]), vs[3]);
    }
  }

  // ---------------------------------------------------------------------------------- the three kernels

  lemma AnyWeightIsSmall(w: seq<I8>)
    ensures Small(w, LARGEST_LANE)
  {
  }

  /** What the columns of all weights add up to, plus the plain sum of the tail. */
  method Finish(a: seq<Activation>, w: seq<I8>, ghost lanes: Lanes, v: Vector, n: nat) returns (sum: I32)
    requires |a| == |w| <= ELEMENTS_END && 16 * n <= |a| && Exact(lanes, LARGEST_LANE) && HoldsColumns(a, w, lanes, v, n)
    ensures sum == Dot(a, w, 0, |a|)
  {
    AnyWeightIsSmall(w);
    ColumnsSum(a, w, lanes, LARGEST_LANE, n);
    BoundLimit(LARGEST_LANE, n);
    var head := AcrossLanes(v, 8192 * LARGEST_LANE);
    var tail := ScalarDot(a, w, 16 * n);
    DotSplits(a, w, 0, 16 * n, |a|);
    assert -0x8000_0000 <= Dot(a, w, 0, |a|) < 0x8000_0000;
    sum := head + tail;
  }

  /** `dot_u8_i8_dotprod`. */
  method SdotKernel(a: seq<Activation>, w: seq<I8>) returns (sum: I32)
    requires |a| == |w| <= ELEMENTS_END
    ensures sum == Dot(a, w, 0, |a|)
  {
    AnyWeightIsSmall(w);
    SdotIsExact(LARGEST_LANE);
    ghost var counts: seq<nat>;
    var vs, n;
    vs, n, counts := Accumulate(a, w, SdotLanes(), LARGEST_LANE);
    var v := Reduce(a, w, SdotLanes(), LARGEST_LANE, vs, counts, n, true);
    sum := Finish(a, w, SdotLanes(), v, n);
  }

  /** `dot_u8_i8_wasm` without relaxed SIMD. */
  method StableKernel(a: seq<Activation>, w: seq<I8>) returns (sum: I32)
    requires |a| == |w| <= ELEMENTS_END
    ensures sum == Dot(a, w, 0, |a|)
  {
    AnyWeightIsSmall(w);
    StableIsExact(LARGEST_LANE);
    ghost var counts: seq<nat>;
    var vs, n;
    vs, n, counts := Accumulate(a, w, StableLanes(), LARGEST_LANE);
    var v := Reduce(a, w, StableLanes(), LARGEST_LANE, vs, counts, n, false);
    sum := Finish(a, w, StableLanes(), v, n);
  }

  /** A weight as the byte that holds it. */
  function Bits(w: I8): Byte {
    if w >= 0 then w else w + 256
  }

  /** The lower seven bits. */
  function Low7(w: I8): I8 {
    Bits(w) % 128
  }

  /** The sign bit, shifted down. */
  function SignBit(w: I8): I8 {
    Bits(w) / 128
  }

  /** A signed weight is its low seven bits less 128 times its sign bit; both parts have at most seven bits. */
  lemma WeightSplits(w: I8)
    ensures w == Low7(w) - 128 * SignBit(w) && 0 <= Low7(w) < 128 && 0 <= SignBit(w) <= 1
  {
  }

  function Lows(w: seq<I8>): (lows: seq<I8>)
    ensures |lows| == |w|
  {
    seq(|w|, i requires 0 <= i < |w| => Low7(w[i]))
  }

  function Signs(w: seq<I8>): (signs: seq<I8>)
    ensures |signs| == |w|
  {
    seq(|w|, i requires 0 <= i < |w| => SignBit(w[i]))
  }

  lemma ProductSplits(a: Activation, w: I8)
    ensures Product(a, w) == Product(a, Low7(w)) - 128 * Product(a, SignBit(w))
  {
    WeightSplits(w);
    var c: int, low: int, sign: int := CenteredLane(a), Low7(w), SignBit(w);
    assert c * (low - 128 * sign) == c * low - 128 * (c * sign);
  }

  lemma LaneSplits(a: seq<Activation>, w: seq<I8>, l: nat)
    requires |a| == |w| == 16 && l < 4
    ensures SdotLane(a, w, l) == SdotLane(a, Lows(w), l) - 128 * SdotLane(a, Signs(w), l)
  {
    ProductSplits(a[4 * l], w[4 * l]);
    ProductSplits(a[4 * l + 1], w[4 * l + 1]);
    ProductSplits(a[4 * l + 2], w[4 * l + 2]);
    ProductSplits(a[4 * l + 3], w[4 * l + 3]);
  }

  /** On chunk `k`, the lane of the low parts less 128 times that of the signs is the lane of the weights. */
  ghost predicate SplitsAt(lanes: Lanes, a: seq<Activation>, w: seq<I8>, lows: seq<I8>, signs: seq<I8>, l: nat, k: nat)
    requires 16 * k + 16 <= |a| <= |w| == |lows| == |signs|
  {
    var from, end := 16 * k, 16 * k + 16;
    LaneOf(lanes(a[from..end], w[from..end]), l)
    == LaneOf(lanes(a[from..end], lows[from..end]), l) - 128 * LaneOf(lanes(a[from..end], signs[from..end]), l)
  }

  lemma PartsOfSlice(w: seq<I8>, from: nat, end: nat)
    requires from <= end <= |w|
    ensures Lows(w)[from..end] == Lows(w[from..end]) && Signs(w)[from..end] == Signs(w[from..end])
  {
  }

  lemma SdotLaneOf(a: seq<Activation>, w: seq<I8>, l: nat)
    requires |a| == |w| == 16 && l < 4
    ensures LaneOf(SdotLanes()(a, w), l) == SdotLane(a, w, l)
  {
  }

  lemma ChunkSplits(a: seq<Activation>, w: seq<I8>, l: nat, k: nat)
    requires 16 * k + 16 <= |a| <= |w| && l < 4
    ensures SplitsAt(SdotLanes(), a, w, Lows(w), Signs(w), l, k)
  {
    var from, end := 16 * k, 16 * k + 16;
    var a16, w16 := a[from..end], w[from..end];
    PartsOfSlice(w, from, end);
    SdotLaneOf(a16, w16, l);
    SdotLaneOf(a16, Lows(w16), l);
    SdotLaneOf(a16, Signs(w16), l);
    LaneSplits(a16, w16, l);
  }

  /** Column by column, the low parts less 128 times the signs are the weights. */
  lemma {:induction false} ColumnSplits(a: seq<Activation>, w: seq<I8>, lows: seq<I8>, signs: seq<I8>, lanes: Lanes, l: nat, n: nat)
    requires 16 * n <= |a| <= |w| == |lows| == |signs|
    requires forall k: nat :: k < n ==> SplitsAt(lanes, a, w, lows, signs, l, k)
    ensures Column(a, w, lanes, l, n) == Column(a, lows, lanes, l, n) - 128 * Column(a, signs, lanes, l, n)
  {
    if n > 0 {
      ColumnSplits(a, w, lows, signs, lanes, l, n - 1);
      assert SplitsAt(lanes, a, w, lows, signs, l, n - 1);
    }
  }

  lemma SdotColumnSplits(a: seq<Activation>, w: seq<I8>, l: nat, n: nat)
    requires 16 * n <= |a| <= |w| && l < 4
    ensures Column(a, w, SdotLanes(), l, n) == Column(a, Lows(w), SdotLanes(), l, n) - 128 * Column(a, Signs(w), SdotLanes(), l, n)
  {
    forall k: nat | k < n ensures SplitsAt(SdotLanes(), a, w, Lows(w), Signs(w), l, k) { ChunkSplits(a, w, l, k); }
    ColumnSplits(a, w, Lows(w), Signs(w), SdotLanes(), l, n);
  }

  function CorrectedLane(x: int, c: int): I32 {
    Wrap32(x - Wrap32(c * 128))
  }

  /** The sums of the low parts less the corrections, shifted by seven bits. */
  function Corrected(v: Vector, correction: Vector): Vector {
    seq(4, l requires 0 <= l < 4 => CorrectedLane(v[l], correction[l]))
  }

  lemma CorrectedExactly(x: int, c: int)
    requires -0x8000_0000 <= c * 128 < 0x8000_0000 && -0x8000_0000 <= x - c * 128 < 0x8000_0000
    ensures CorrectedLane(x, c) == x - c * 128
  {
  }

  lemma CorrectedHoldsColumns(a: seq<Activation>, w: seq<I8>, v: Vector, correction: Vector, n: nat)
    requires 16 * n <= |a| == |w| <= ELEMENTS_END && Small(Signs(w), 508)
    requires HoldsColumns(a, Lows(w), SdotLanes(), v, n) && HoldsColumns(a, Signs(w), SdotLanes(), correction, n)
    ensures HoldsColumns(a, w, SdotLanes(), Corrected(v, correction), n)
  {
    AnyWeightIsSmall(w);
    SdotIsExact(LARGEST_LANE);
    SdotIsExact(508);
    ColumnsSum(a, w, SdotLanes(), LARGEST_LANE, n);
    ColumnsSum(a, Signs(w), SdotLanes(), 508, n);
    BoundLimit(LARGEST_LANE, n);
    BoundLimit(508, n);
    forall l: nat | l < 4 ensures Corrected(v, correction)[l] == Column(a, w, SdotLanes(), l, n) {
      SdotColumnSplits(a, w, l, n);
      CorrectedExactly(v[l], correction[l]);
    }
  }

  /** Two ways of taking sixteen elements agree on chunk `k`. */
  ghost predicate AgreeAt(lanes: Lanes, others: Lanes, a: seq<Activation>, w: seq<I8>, k: nat) {
    16 * k + 16 <= |a| <= |w| && lanes(a[16 * k..16 * k + 16], w[16 * k..16 * k + 16]) == others(a[16 * k..16 * k + 16], w[16 * k..16 * k + 16])
  }

  lemma {:induction false} ColumnsAgree(lanes: Lanes, others: Lanes, a: seq<Activation>, w: seq<I8>, l: nat, n: nat)
    requires 16 * n <= |a| <= |w| && forall k: nat :: k < n ==> AgreeAt(lanes, others, a, w, k)
    ensures Column(a, w, lanes, l, n) == Column(a, w, others, l, n)
  {
    if n > 0 {
      assert AgreeAt(lanes, others, a, w, n - 1);
      ColumnsAgree(lanes, others, a, w, l, n - 1);
    }
  }

  lemma RelaxedColumns(narrow: Narrowing, a: seq<Activation>, w: seq<I8>, l: nat, n: nat)
    requires KeepsSixteenBits(narrow) && 16 * n <= |a| <= |w|
    ensures Column(a, w, RelaxedLanes(narrow), l, n) == Column(a, w, SdotLanes(), l, n)
  {
    forall k: nat | k < n ensures AgreeAt(RelaxedLanes(narrow), SdotLanes(), a, w, k) {
      RelaxedIsSdot(narrow, a[16 * k..16 * k + 16], w[16 * k..16 * k + 16]);
    }
    ColumnsAgree(RelaxedLanes(narrow), SdotLanes(), a, w, l, n);
  }

  /** `dot_u8_i8_wasm` with relaxed SIMD: low parts and sign bits are accumulated side by side, however pair sums are narrowed. */
  method RelaxedKernel(a: seq<Activation>, w: seq<I8>, narrow: Narrowing) returns (sum: I32)
    requires |a| == |w| <= ELEMENTS_END && KeepsSixteenBits(narrow)
    ensures sum == Dot(a, w, 0, |a|)
  {
    AnyWeightIsSmall(Lows(w));
    RelaxedIsExact(narrow, LARGEST_LANE);
    RelaxedIsExact(narrow, 508);
    SdotIsExact(LARGEST_LANE);
    var lanes := RelaxedLanes(narrow);
    ghost var counts: seq<nat>, signCounts: seq<nat>;
    var vs, n, corrections, m;
    vs, n, counts := Accumulate(a, Lows(w), lanes, LARGEST_LANE);
    corrections, m, signCounts := Accumulate(a, Signs(w), lanes, 508);
    assert m == n;
    var v := Reduce(a, Lows(w), lanes, LARGEST_LANE, vs, counts, n, false);
    var correction := Reduce(a, Signs(w), lanes, 508, corrections, signCounts, n, false);
    forall l: nat | l < 4
      ensures v[l] == Column(a, Lows(w), SdotLanes(), l, n) && correction[l] == Column(a, Signs(w), SdotLanes(), l, n)
    {
      RelaxedColumns(narrow, a, Lows(w), l, n);
      RelaxedColumns(narrow, a, Signs(w), l, n);
    }
    CorrectedHoldsColumns(a, w, v, correction, n);
    sum := Finish(a, w, SdotLanes(), Corrected(v, correction), n);
  }
}
