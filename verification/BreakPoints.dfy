/**
 Where an oversize unit may be cut (`fallback_break_points` in `crates/marian-core/src/segmenter.rs`): at punctuation,
 at commas, and at whitespace, in this order of preference.
 */
module BreakPoints {
  import opened Base
  import opened Utf8

  datatype BreakPoint = BreakPoint(contentEnd: nat, nextStart: nat, priority: nat)

  // ---------------------------------------------------------------------------------- what a break point is

  /** Where the dashes from `i` on end. */
  function DashEnd(t: Text, i: nat, end: nat): (e: nat)
    ensures i <= e && (i <= end ==> e <= end)
    decreases end - i
  {
    if i < end && i < |t| && t[i] == DASH then DashEnd(t, i + 1, end) else i
  }

  /** The dash is this byte, and no other scalar contains it (section 3 of RFC 3629). */
  const DASH: Byte := 0x2D

  /** The scalar before `i` is whitespace. */
  ghost predicate EndsWhite(t: Text, i: nat) {
    exists j: nat {:trigger White(t, j)} :: j < i && Boundary(t, j) && White(t, j) && Next(t, j) == i
  }

  /** A dash beside another dash, whitespace, or an edge of the range. */
  ghost predicate DashBoundary(t: Text, start: nat, end: nat, i: nat) {
    || (i + 1 < end && i + 1 < |t| && t[i + 1] == DASH) || i == start || EndsWhite(t, i) || i + 1 >= end || White(t, i + 1)
  }

  /** How punctuation ranks as a place to cut, if at all. */
  ghost function Priority(t: Text, start: nat, end: nat, i: nat): Option<nat>
    requires i < |t| && i + Width(t[i]) <= |t|
  {
    var c := Scalar(t, i);
    if c == 0x3B || c == 0xFF1B || c == 0x3A || c == 0xFF1A || c == 0x2F || c == 0x2013 || c == 0x2014 then Some(0)
    else if c == 0x2C || c == 0xFF0C then Some(1)
    else if t[i] == DASH && DashBoundary(t, start, end, i) then Some(0)
    else None
  }

  /** A run of whitespace, or of dashes, counts at its start only. */
  ghost predicate RunBegins(t: Text, start: nat, i: nat)
    requires i < |t|
  {
    && (White(t, i) ==> i == start || !EndsWhite(t, i))
    && (t[i] == DASH && 0 < i ==> i == start || t[i - 1] != DASH)
  }

  function PunctuationEnd(t: Text, end: nat, i: nat): nat
    requires i < |t|
  {
    if t[i] == DASH then DashEnd(t, Next(t, i), end) else Next(t, i)
  }

  /** The scalar at `i` makes this break point. */
  ghost predicate BreakAt(t: Text, start: nat, end: nat, i: nat, p: BreakPoint)
    requires i < |t|
  {
    && i + Width(t[i]) <= |t| && RunBegins(t, start, i)
    && if White(t, i) then p == BreakPoint(i, WhiteEnd(t, i, end), 2)
       else
         && Priority(t, start, end, i).Some?
         && p == BreakPoint(PunctuationEnd(t, end, i), WhiteEnd(t, PunctuationEnd(t, end, i), end), Priority(t, start, end, i).value)
  }

  /** A break point of the range, made by a scalar before `limit`. */
  ghost predicate BreakBefore(t: Text, start: nat, end: nat, limit: nat, p: BreakPoint) {
    exists i: nat {:trigger BreakAt(t, start, end, i, p)} :: start <= i < limit && i < |t| && Boundary(t, i) && BreakAt(t, start, end, i, p)
  }

  ghost predicate IsBreak(t: Text, start: nat, end: nat, p: BreakPoint) {
    BreakBefore(t, start, end, end, p)
  }

  /** What the searches need of a break point. */
  ghost predicate PointOk(t: Text, start: nat, end: nat, p: BreakPoint) {
    && start <= p.contentEnd <= p.nextStart <= end <= |t| && p.priority <= 2
    && Boundary(t, p.contentEnd) && Boundary(t, p.nextStart) && AllWhite(t, p.contentEnd, p.nextStart)
  }

  /** Within one priority, break points are strictly ordered. */
  ghost predicate Ordered(points: seq<BreakPoint>) {
    forall i, j :: 0 <= i < j < |points| && points[i].priority == points[j].priority ==> points[i].contentEnd < points[j].contentEnd
  }

  /** The break points made by the scalars from `index` on, in the order of the scan. */
  ghost function PointsFrom(t: Text, start: nat, end: nat, index: nat): seq<BreakPoint>
    decreases end - index
  {
    if index >= end || index >= |t| || index + Width(t[index]) > |t| then []
    else if White(t, index) then
      var runEnd := WhiteEnd(t, index, end);
      if runEnd <= index then [] else [BreakPoint(index, runEnd, 2)] + PointsFrom(t, start, end, runEnd)
    else
      var priority := Priority(t, start, end, index);
      if priority.None? then PointsFrom(t, start, end, Next(t, index))
      else
        var punctuationEnd := PunctuationEnd(t, end, index);
        if punctuationEnd <= index then []
        else [BreakPoint(punctuationEnd, WhiteEnd(t, punctuationEnd, end), priority.value)] + PointsFrom(t, start, end, punctuationEnd)
  }

  // ---------------------------------------------------------------------------------- neighbours

  lemma OneBefore(t: Text, j: nat, k: nat)
    requires Valid(t) && j < |t| && k < |t| && Boundary(t, j) && Boundary(t, k) && Next(t, j) == Next(t, k)
    ensures j == k
  {
    NextFacts(t, j);
    NextFacts(t, k);
  }

  /** Behind a scalar that is not whitespace, nothing ends with whitespace. */
  lemma BehindInk(t: Text, i: nat)
    requires Valid(t) && i < |t| && Boundary(t, i) && !White(t, i)
    ensures !EndsWhite(t, Next(t, i))
  {
    forall j: nat | j < |t| && Boundary(t, j) && Next(t, j) == Next(t, i) ensures !White(t, j) { OneBefore(t, j, i); }
  }

  /** The byte before the end of a scalar is no dash, unless the scalar is one. */
  lemma LastByte(t: Text, i: nat)
    requires Valid(t) && i < |t| && Boundary(t, i)
    ensures Next(t, i) <= |t|
    ensures t[Next(t, i) - 1] == DASH ==> Next(t, i) == i + 1 && t[i] == DASH
  {
    assert ScalarAt(t, i);
    var k := Next(t, i) - 1;
    if k != i { assert Continuation(t[k]); }
  }

  lemma DashIsInk(t: Text, i: nat)
    requires i < |t| && t[i] == DASH
    ensures Next(t, i) == i + 1 && !White(t, i) && Scalar(t, i) == 0x2D
  {
  }

  /** Inside a run of whitespace, every scalar is whitespace behind whitespace. */
  lemma {:induction false} InsideWhite(t: Text, i: nat, end: nat, k: nat)
    requires Valid(t) && i < end <= |t| && Boundary(t, i) && Boundary(t, end) && i < k < WhiteEnd(t, i, end) && Boundary(t, k)
    ensures White(t, k) && EndsWhite(t, k)
    decreases end - i
  {
    StepWithin(t, i, end);
    NextFacts(t, i);
    if Next(t, i) < k {
      InsideWhite(t, Next(t, i), end, k);
    } else {
      assert White(t, i) && Next(t, i) == k;
    }
  }

  /** Behind a run of whitespace no dash precedes. */
  lemma {:induction false} BehindWhite(t: Text, i: nat, end: nat)
    requires Valid(t) && i < end <= |t| && Boundary(t, i) && Boundary(t, end) && White(t, i)
    ensures i < WhiteEnd(t, i, end) <= end && Boundary(t, WhiteEnd(t, i, end)) && t[WhiteEnd(t, i, end) - 1] != DASH
    decreases end - i
  {
    StepWithin(t, i, end);
    LastByte(t, i);
    if t[i] == DASH { DashIsInk(t, i); }
    if Next(t, i) < end && White(t, Next(t, i)) { BehindWhite(t, Next(t, i), end); }
  }

  /** Inside a run of dashes every byte follows a dash; behind it none does, unless the range ends. */
  lemma {:induction false} InsideDashes(t: Text, i: nat, end: nat)
    requires 0 < i <= end <= |t| && t[i - 1] == DASH
    ensures forall k {:trigger t[k]} :: i <= k < DashEnd(t, i, end) ==> t[k] == DASH && t[k - 1] == DASH
    ensures t[DashEnd(t, i, end) - 1] == DASH && (DashEnd(t, i, end) < end ==> t[DashEnd(t, i, end)] != DASH)
    decreases end - i
  {
    if i < end && t[i] == DASH { InsideDashes(t, i + 1, end); }
  }

  // ---------------------------------------------------------------------------------- the scan

  lemma NoPointHere(t: Text, start: nat, end: nat, index: nat)
    requires index < end <= |t| && index + Width(t[index]) <= end && !White(t, index) && Priority(t, start, end, index).None?
    ensures PointsFrom(t, start, end, index) == PointsFrom(t, start, end, Next(t, index))
  {
  }

  lemma PointHere(t: Text, start: nat, end: nat, index: nat, points: seq<BreakPoint>, p: BreakPoint, later: nat)
    requires index < later <= end <= |t| && index + Width(t[index]) <= end
    requires if White(t, index) then later == WhiteEnd(t, index, end) && p == BreakPoint(index, later, 2)
             else
               && later == PunctuationEnd(t, end, index) && Priority(t, start, end, index) == Some(p.priority)
               && p == BreakPoint(later, WhiteEnd(t, later, end), p.priority)
    ensures (points + [p]) + PointsFrom(t, start, end, later) == points + PointsFrom(t, start, end, index)
  {
    assert PointsFrom(t, start, end, index) == [p] + PointsFrom(t, start, end, later);
  }

  /** `is_dash_boundary`. */
  method IsDashBoundary(t: Text, index: nat, start: nat, end: nat) returns (boundary: bool)
    requires Valid(t) && start <= index < end <= |t| && Boundary(t, index)
    ensures boundary <==> DashBoundary(t, start, end, index)
  {
    var repeated := index + 1 < end && t[index + 1] == DASH;
    var beforeSpace := index == start;
    if index > start {
      var previous := Previous(t, index);
      beforeSpace := White(t, previous);
      if !beforeSpace { BehindInk(t, previous); }
    }
    var afterSpace := index + 1 >= end || White(t, index + 1);
    return repeated || beforeSpace || afterSpace;
  }

  method PriorityAt(t: Text, index: nat, start: nat, end: nat) returns (priority: Option<nat>)
    requires Valid(t) && start <= index < end <= |t| && Boundary(t, index) && index + Width(t[index]) <= |t|
    ensures priority == Priority(t, start, end, index)
  {
    var c := Scalar(t, index);
    if c == 0x3B || c == 0xFF1B || c == 0x3A || c == 0xFF1A || c == 0x2F || c == 0x2013 || c == 0x2014 { return Some(0); }
    if c == 0x2C || c == 0xFF0C { return Some(1); }
    if t[index] == DASH {
      var dash := IsDashBoundary(t, index, start, end);
      if dash { return Some(0); }
    }
    return None;
  }

  method ConsumeDashes(t: Text, from: nat, end: nat) returns (index: nat)
    requires Valid(t) && from <= end <= |t| && Boundary(t, from) && Boundary(t, end)
    ensures from <= index <= end && Boundary(t, index) && index == DashEnd(t, from, end)
  {
    index := from;
    while index < end && t[index] == DASH
      invariant from <= index <= end && Boundary(t, index) && DashEnd(t, index, end) == DashEnd(t, from, end)
    {
      StepWithin(t, index, end);
      index := index + 1;
    }
  }

  /** The scan stands at the start of a run, if in one. */
  ghost predicate Fresh(t: Text, start: nat, end: nat, index: nat) {
    && start <= index <= end <= |t| && Boundary(t, index)
    && (index < end ==> RunBegins(t, start, index))
  }

  /** Collected so far: exactly the break points made before the scan. */
  ghost predicate Found(t: Text, start: nat, end: nat, points: seq<BreakPoint>, index: nat) {
    && Ordered(points)
    && (forall p {:trigger p in points} :: p in points ==> PointOk(t, start, end, p) && p.contentEnd <= index && (p.priority == 2 ==> p.contentEnd < index))
    && (forall p {:trigger p in points} {:trigger BreakBefore(t, start, end, index, p)} :: p in points <==> BreakBefore(t, start, end, index, p))
  }

  lemma Appended(t: Text, start: nat, end: nat, points: seq<BreakPoint>, index: nat, p: BreakPoint, later: nat)
    requires Found(t, start, end, points, index) && index < later && PointOk(t, start, end, p)
    requires if p.priority == 2 then p.contentEnd == index else index < p.contentEnd <= later
    requires forall q :: BreakBefore(t, start, end, later, q) <==> BreakBefore(t, start, end, index, q) || q == p
    ensures Found(t, start, end, points + [p], later)
  {
    forall q ensures q in points + [p] <==> BreakBefore(t, start, end, later, q) {
      assert q in points + [p] <==> q in points || q == p;
      assert q in points <==> BreakBefore(t, start, end, index, q);
    }
    assert forall i :: 0 <= i < |points| ==> points[i] in points;
  }

  /** Nothing behind `index` and before `later` begins a run. */
  ghost predicate Silent(t: Text, start: nat, index: nat, later: nat) {
    forall i: nat {:trigger Boundary(t, i)} :: index < i < later && i < |t| && Boundary(t, i) ==> !RunBegins(t, start, i)
  }

  /** The scalar at the scan decides what the step adds. */
  lemma StepAdds(t: Text, start: nat, end: nat, index: nat, later: nat, q: BreakPoint)
    requires Valid(t) && start <= index < later <= end <= |t| && Boundary(t, index) && Silent(t, start, index, later)
    ensures BreakBefore(t, start, end, later, q) <==> BreakBefore(t, start, end, index, q) || BreakAt(t, start, end, index, q)
  {
    if BreakBefore(t, start, end, later, q) {
      var i: nat :| start <= i < later && i < |t| && Boundary(t, i) && BreakAt(t, start, end, i, q);
      if i < index { assert BreakBefore(t, start, end, index, q); }
    }
  }

  lemma WhiteStep(t: Text, start: nat, end: nat, index: nat, runEnd: nat)
    requires Valid(t) && Fresh(t, start, end, index) && index < end && Boundary(t, end) && White(t, index)
    requires runEnd == WhiteEnd(t, index, end) && (runEnd == end || !White(t, runEnd))
    ensures index < runEnd <= end && Silent(t, start, index, runEnd) && Fresh(t, start, end, runEnd)
  {
    BehindWhite(t, index, end);
    forall i: nat | index < i < runEnd && i < |t| && Boundary(t, i) ensures !RunBegins(t, start, i) {
      InsideWhite(t, index, end, i);
    }
  }

  lemma ScalarStep(t: Text, start: nat, end: nat, index: nat)
    requires Valid(t) && start <= index < end <= |t| && Boundary(t, index) && Boundary(t, end) && !White(t, index)
    requires t[index] == DASH ==> Next(t, index) < end ==> t[Next(t, index)] != DASH
    ensures Silent(t, start, index, Next(t, index)) && Fresh(t, start, end, Next(t, index))
  {
    StepWithin(t, index, end);
    NextFacts(t, index);
    BehindInk(t, index);
    LastByte(t, index);
  }

  lemma DashStep(t: Text, start: nat, end: nat, index: nat, later: nat)
    requires Valid(t) && start <= index < end <= |t| && Boundary(t, index) && Boundary(t, end) && t[index] == DASH
    requires later == DashEnd(t, index + 1, end) && Boundary(t, later)
    ensures index < later <= end && Silent(t, start, index, later) && Fresh(t, start, end, later)
  {
    InsideDashes(t, index + 1, end);
    DashIsInk(t, later - 1);
    assert Boundary(t, later - 1);
    BehindInk(t, later - 1);
  }

  lemma AddPoint(t: Text, start: nat, end: nat, points: seq<BreakPoint>, index: nat, p: BreakPoint, later: nat)
    requires Valid(t) && start <= index < later <= end <= |t| && Boundary(t, index) && Silent(t, start, index, later)
    requires Found(t, start, end, points, index) && PointOk(t, start, end, p) && BreakAt(t, start, end, index, p)
    requires if p.priority == 2 then p.contentEnd == index else index < p.contentEnd <= later
    ensures Found(t, start, end, points + [p], later)
  {
    forall q ensures BreakBefore(t, start, end, later, q) <==> BreakBefore(t, start, end, index, q) || q == p {
      StepAdds(t, start, end, index, later, q);
    }
    Appended(t, start, end, points, index, p, later);
  }

  lemma NothingAdded(t: Text, start: nat, end: nat, points: seq<BreakPoint>, index: nat)
    requires Valid(t) && start <= index < end <= |t| && Boundary(t, index) && index + Width(t[index]) <= end
    requires !White(t, index) && Priority(t, start, end, index).None? && Silent(t, start, index, Next(t, index))
    requires Found(t, start, end, points, index)
    ensures Found(t, start, end, points, Next(t, index))
  {
    forall q ensures q in points <==> BreakBefore(t, start, end, Next(t, index), q) {
      StepAdds(t, start, end, index, Next(t, index), q);
      assert q in points <==> BreakBefore(t, start, end, index, q);
    }
  }

  /** A scalar that ranks nothing is passed. */
  lemma NothingRanks(t: Text, start: nat, end: nat, points: seq<BreakPoint>, index: nat)
    requires Valid(t) && Boundary(t, end) && index < end && Fresh(t, start, end, index) && Found(t, start, end, points, index)
    requires index + Width(t[index]) <= end && !White(t, index) && Priority(t, start, end, index).None?
    ensures Fresh(t, start, end, Next(t, index)) && Found(t, start, end, points, Next(t, index))
    ensures PointsFrom(t, start, end, index) == PointsFrom(t, start, end, Next(t, index))
  {
    ScalarStep(t, start, end, index);
    NothingAdded(t, start, end, points, index);
    NoPointHere(t, start, end, index);
  }

  /** Punctuation that ranks: a run of dashes is taken as one. */
  method Punctuation(t: Text, start: nat, end: nat, points: seq<BreakPoint>, index: nat, priority: nat)
    returns (points': seq<BreakPoint>, index': nat)
    requires Valid(t) && Boundary(t, end) && index < end && Fresh(t, start, end, index) && Found(t, start, end, points, index)
    requires index + Width(t[index]) <= |t| && !White(t, index) && Priority(t, start, end, index) == Some(priority)
    ensures index < index' && Fresh(t, start, end, index') && Found(t, start, end, points', index')
    ensures points' + PointsFrom(t, start, end, index') == points + PointsFrom(t, start, end, index)
  {
    StepWithin(t, index, end);
    var punctuationEnd := Next(t, index);
    if t[index] == DASH {
      punctuationEnd := ConsumeDashes(t, punctuationEnd, end);
      DashStep(t, start, end, index, punctuationEnd);
    } else {
      ScalarStep(t, start, end, index);
    }
    var separatorEnd := ConsumeWhitespace(t, punctuationEnd, end);
    var point := BreakPoint(punctuationEnd, separatorEnd, priority);
    AddPoint(t, start, end, points, index, point, punctuationEnd);
    PointHere(t, start, end, index, points, point, punctuationEnd);
    return points + [point], punctuationEnd;
  }

  /** A run of whitespace is one break point. */
  method Whitespace(t: Text, start: nat, end: nat, points: seq<BreakPoint>, index: nat) returns (points': seq<BreakPoint>, index': nat)
    requires Valid(t) && Boundary(t, end) && index < end && Fresh(t, start, end, index) && Found(t, start, end, points, index)
    requires index + Width(t[index]) <= end && White(t, index)
    ensures index < index' && Fresh(t, start, end, index') && Found(t, start, end, points', index')
    ensures points' + PointsFrom(t, start, end, index') == points + PointsFrom(t, start, end, index)
  {
    var runEnd := ConsumeWhitespace(t, index, end);
    WhiteStep(t, start, end, index, runEnd);
    var point := BreakPoint(index, runEnd, 2);
    AddPoint(t, start, end, points, index, point, runEnd);
    PointHere(t, start, end, index, points, point, runEnd);
    return points + [point], runEnd;
  }

  method FallbackBreakPoints(t: Text, start: nat, end: nat) returns (points: seq<BreakPoint>)
    requires Valid(t) && start <= end <= |t| && Boundary(t, start) && Boundary(t, end)
    ensures Ordered(points) && forall p :: p in points ==> PointOk(t, start, end, p)
    ensures forall p :: p in points <==> IsBreak(t, start, end, p)
    ensures points == PointsFrom(t, start, end, start)
  {
    points := [];
    var index := start;
    while index < end
      invariant Fresh(t, start, end, index) && Found(t, start, end, points, index)
      invariant points + PointsFrom(t, start, end, index) == PointsFrom(t, start, end, start)
      decreases end - index
    {
      points, index := NextPoint(t, start, end, points, index);
    }
  }

  method NextPoint(t: Text, start: nat, end: nat, points: seq<BreakPoint>, index: nat) returns (points': seq<BreakPoint>, index': nat)
    requires Valid(t) && Boundary(t, end) && index < end && Fresh(t, start, end, index) && Found(t, start, end, points, index)
    ensures index < index' && Fresh(t, start, end, index') && Found(t, start, end, points', index')
    ensures points' + PointsFrom(t, start, end, index') == points + PointsFrom(t, start, end, index)
  {
    StepWithin(t, index, end);
    if White(t, index) {
      points', index' := Whitespace(t, start, end, points, index);
      return;
    }
    var priority := PriorityAt(t, index, start, end);
    if priority.None? {
      NothingRanks(t, start, end, points, index);
      return points, Next(t, index);
    }
    points', index' := Punctuation(t, start, end, points, index, priority.value);
  }
}
