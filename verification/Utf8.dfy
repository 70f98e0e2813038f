/**
 UTF-8 text as bytes with scalar boundaries (section 3 of RFC 3629). Every text that encodes scalars satisfies
 `Valid`; nothing here needs the further restrictions on overlong forms and surrogates.
 */
module Utf8 {
  import opened Base

  type Text = seq<Byte>

  predicate Continuation(b: Byte) {
    0x80 <= b < 0xC0
  }

  /** How many bytes a scalar with this first byte takes. */
  function Width(b: Byte): (w: nat)
    ensures 1 <= w <= 4
  {
    if b < 0x80 then 1 else if b < 0xE0 then 2 else if b < 0xF0 then 3 else 4
  }

  /** `is_char_boundary`. */
  predicate Boundary(t: Text, i: nat) {
    i == 0 || i == |t| || (i < |t| && !Continuation(t[i]))
  }

  /** A scalar starts at `i` and ends where the next one starts. */
  ghost predicate ScalarAt(t: Text, i: nat)
    requires i < |t|
  {
    && i + Width(t[i]) <= |t|
    && Boundary(t, i + Width(t[i]))
    && forall k :: i < k < i + Width(t[i]) ==> Continuation(t[k])
  }

  ghost predicate Valid(t: Text) {
    && (t != [] ==> !Continuation(t[0]))
    && forall i: nat {:trigger ScalarAt(t, i)} :: i < |t| && Boundary(t, i) ==> ScalarAt(t, i)
  }

  /** The end of the scalar at `i`. */
  function Next(t: Text, i: nat): (j: nat)
    requires i < |t|
    ensures i < j <= i + 4
  {
    i + Width(t[i])
  }

  lemma NextFacts(t: Text, i: nat)
    requires Valid(t) && i < |t| && Boundary(t, i)
    ensures Next(t, i) <= |t| && Boundary(t, Next(t, i))
    ensures forall k :: i < k < Next(t, i) ==> !Boundary(t, k)
  {
    assert ScalarAt(t, i);
  }

  /** The code point at `i`. */
  function Scalar(t: Text, i: nat): nat
    requires i < |t| && i + Width(t[i]) <= |t|
  {
    if t[i] < 0x80 then t[i]
    else if t[i] < 0xE0 then Bits(t[i], 0xC0) * 0x40 + Bits(t[i + 1], 0x80)
    else if t[i] < 0xF0 then (Bits(t[i], 0xE0) * 0x40 + Bits(t[i + 1], 0x80)) * 0x40 + Bits(t[i + 2], 0x80)
    else ((Bits(t[i], 0xF0) * 0x40 + Bits(t[i + 1], 0x80)) * 0x40 + Bits(t[i + 2], 0x80)) * 0x40 + Bits(t[i + 3], 0x80)
  }

  function Bits(b: Byte, marker: Byte): nat {
    if b < marker then 0 else b - marker
  }

  /** `char::is_whitespace`: the Unicode White_Space property. */
  predicate IsWhitespace(c: nat) {
    0x9 <= c <= 0xD || c == 0x20 || c == 0x85 || c == 0xA0 || c == 0x1680 || 0x2000 <= c <= 0x200A
    || c == 0x2028 || c == 0x2029 || c == 0x202F || c == 0x205F || c == 0x3000
  }

  /** The scalar at `i` is whitespace. */
  predicate White(t: Text, i: nat) {
    i < |t| && i + Width(t[i]) <= |t| && IsWhitespace(Scalar(t, i))
  }

  /** Every scalar in the range is whitespace. */
  ghost predicate AllWhite(t: Text, from: nat, to: nat) {
    forall i: nat {:trigger White(t, i)} :: from <= i < to && Boundary(t, i) ==> White(t, i)
  }

  /** CR and LF are single bytes, and no other scalar contains them. */
  predicate IsNewline(b: Byte) {
    b == 0xA || b == 0xD
  }

  ghost predicate NoNewline(t: Text, from: nat, to: nat) {
    forall i: nat {:trigger IsNewline(t[i])} :: from <= i < to && i < |t| ==> !IsNewline(t[i])
  }

  /** A newline byte is a whitespace scalar of its own, so a scalar that is not whitespace contains none. */
  lemma NewlineIsWhite(t: Text, i: nat)
    requires Valid(t) && i < |t| && Boundary(t, i) && !White(t, i)
    ensures NoNewline(t, i, Next(t, i))
  {
    assert ScalarAt(t, i);
    assert t[i] < 0x80 ==> Scalar(t, i) == t[i];
    forall k: nat | i <= k < Next(t, i) && k < |t| ensures !IsNewline(t[k]) {
      if k != i { assert Continuation(t[k]); }
    }
  }

  /** The start of the scalar that ends at `end` (`chars().next_back()`). */
  method Previous(t: Text, end: nat) returns (start: nat)
    requires Valid(t) && 0 < end <= |t| && Boundary(t, end)
    ensures start < end && Boundary(t, start) && Next(t, start) == end
  {
    start := end - 1;
    while !Boundary(t, start)
      invariant start < end
      invariant forall k :: start < k < end ==> !Boundary(t, k)
      decreases start
    {
      start := start - 1;
    }
    PreviousEnds(t, start, end);
  }

  lemma PreviousEnds(t: Text, start: nat, end: nat)
    requires Valid(t) && start < end <= |t| && Boundary(t, start) && Boundary(t, end)
    requires forall k :: start < k < end ==> !Boundary(t, k)
    ensures Next(t, start) == end
  {
    NextFacts(t, start);
  }

  /** The largest boundary at or before `index`, but not before `minimum` (`floor_char_boundary`). */
  function Floor(t: Text, index: nat, minimum: nat): (floor: nat)
    ensures floor <= index && (minimum <= index ==> minimum <= floor)
    ensures index <= minimum ==> floor == index
    ensures floor > minimum ==> Boundary(t, floor)
    ensures forall k :: floor < k <= index ==> !Boundary(t, k)
    decreases index
  {
    if index > minimum && !Boundary(t, index) then Floor(t, index - 1, minimum) else index
  }

  method FloorBoundary(t: Text, start: nat, minimum: nat) returns (index: nat)
    ensures index == Floor(t, start, minimum)
  {
    index := start;
    while index > minimum && !Boundary(t, index)
      invariant Floor(t, index, minimum) == Floor(t, start, minimum)
    {
      index := index - 1;
    }
  }

  /** The largest boundary strictly before `index` (`previous_char_boundary`). */
  function Below(t: Text, index: nat, minimum: nat): nat {
    if index <= minimum then minimum else Floor(t, index - 1, minimum)
  }

  method PreviousBoundary(t: Text, index: nat, minimum: nat) returns (previous: nat)
    ensures previous == Below(t, index, minimum)
  {
    if index <= minimum { return minimum; }
    previous := index - 1;
    while previous > minimum && !Boundary(t, previous)
      invariant previous < index && Floor(t, previous, minimum) == Floor(t, index - 1, minimum)
    {
      previous := previous - 1;
    }
  }

  /** Where the whitespace from `i` on ends. */
  function WhiteEnd(t: Text, i: nat, end: nat): nat
    decreases end - i
  {
    if i < end && White(t, i) then WhiteEnd(t, Next(t, i), end) else i
  }

  /** `consume_whitespace`: the longest whitespace run from `from` that ends by `end`. */
  method ConsumeWhitespace(t: Text, from: nat, end: nat) returns (index: nat)
    requires Valid(t) && from <= end <= |t| && Boundary(t, from) && Boundary(t, end)
    ensures from <= index <= end && Boundary(t, index) && AllWhite(t, from, index)
    ensures index == end || !White(t, index)
    ensures from < end && White(t, from) ==> Next(t, from) <= index
    ensures index == WhiteEnd(t, from, end)
  {
    index := from;
    while index < end
      invariant from <= index <= end && Boundary(t, index) && AllWhite(t, from, index)
      invariant from < end && White(t, from) ==> index == from || Next(t, from) <= index
      invariant WhiteEnd(t, index, end) == WhiteEnd(t, from, end)
      decreases end - index
    {
      NextFacts(t, index);
      StepWithin(t, index, end);
      if !White(t, index) { break; }
      index := Next(t, index);
    }
  }

  lemma StepWithin(t: Text, i: nat, end: nat)
    requires Valid(t) && i < end <= |t| && Boundary(t, i) && Boundary(t, end)
    ensures Next(t, i) <= end && Boundary(t, Next(t, i))
    ensures i + Width(t[i]) <= |t|
  {
    NextFacts(t, i);
  }

  lemma WhiteExtends(t: Text, from: nat, middle: nat, to: nat)
    requires AllWhite(t, from, middle) && AllWhite(t, middle, to)
    ensures AllWhite(t, from, to)
  {
  }

  /** Where the text before `end` ends without its trailing whitespace. */
  function TrimEnd(t: Text, end: nat): nat {
    if end == 0 then 0
    else if White(t, Floor(t, end - 1, 0)) then TrimEnd(t, Floor(t, end - 1, 0))
    else end
  }

  lemma PreviousIsFloor(t: Text, start: nat, end: nat)
    requires Valid(t) && start < end <= |t| && Boundary(t, start) && Next(t, start) == end
    ensures start == Floor(t, end - 1, 0)
  {
    NextFacts(t, start);
    var floor := Floor(t, end - 1, 0);
    assert Boundary(t, floor);
  }

  /** `trim_trailing_whitespace`. */
  method TrimTrailing(t: Text, from: nat) returns (end: nat)
    requires Valid(t) && from <= |t| && Boundary(t, from)
    ensures end == TrimEnd(t, from)
    ensures end <= from && Boundary(t, end) && AllWhite(t, end, from)
    ensures end > 0 ==> exists last: nat :: last < end && Boundary(t, last) && Next(t, last) == end && !White(t, last)
  {
    end := from;
    while end > 0
      invariant end <= from && Boundary(t, end) && AllWhite(t, end, from) && TrimEnd(t, end) == TrimEnd(t, from)
    {
      var start := Previous(t, end);
      PreviousIsFloor(t, start, end);
      if !White(t, start) { break; }
      NextFacts(t, start);
      end := start;
    }
  }
}
