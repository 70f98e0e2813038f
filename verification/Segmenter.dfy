/**
 Bounded, tokenizer-aware segmentation of long text (`crates/marian-core/src/segmenter.rs`).

 The tokenizer is any function from bytes to a piece count or a failure; whether a period ends a sentence is
 any predicate. Ranges are byte offsets on scalar boundaries.
 */
module Segmenter {
  import opened Base
  import opened BreakPoints
  import opened Utf8

  const MAX_SEGMENTER_INPUT_BYTES: nat := 4 * 1024 * 1024
  const MAX_SEGMENTS: nat := 4_096
  const MAX_ENCODING_CALLS: nat := 32_768
  const MAX_ENCODING_BYTES: nat := 64 * 1024 * 1024
  const MAX_COUNTED_PIECES: nat := 8 * 1024 * 1024

  /** Texts up to this length cannot exhaust the work limits, unless a range of them has more pieces than this. */
  const SHORT_TEXT: nat := 254
  const LARGE_RANGE: nat := 256

  type Tokenizer = Text -> Result<nat, string>

  datatype Error =
    | ZeroPieceLimit
    | InputTooLarge
    | Encoding(start: nat, end: nat)
    | EncodingWorkLimit
    | TooManySegments
    | UnsplitableScalar(scalarStart: nat, scalarEnd: nat, pieces: nat)

  /** What each error reports is true of the input. */
  ghost predicate Explained(t: Text, tokenize: Tokenizer, maxPieces: nat, e: Error) {
    match e
    case ZeroPieceLimit => maxPieces == 0
    case InputTooLarge => |t| > MAX_SEGMENTER_INPUT_BYTES
    case Encoding(start, end) => start <= end <= |t| && tokenize(t[start..end]).Err?
    case UnsplitableScalar(start, end, pieces) =>
      && start < |t| && end == Next(t, start) && pieces > maxPieces && Counted(tokenize, t, start, end, pieces)
    case EncodingWorkLimit => |t| > SHORT_TEXT || HasLargeRange(t, tokenize)
    case TooManySegments => |t| > MAX_SEGMENTS
  }

  /** The tokenizer gives some range of the text more pieces than the work limits allow on average. */
  ghost predicate HasLargeRange(t: Text, tokenize: Tokenizer) {
    exists a: nat, b: nat {:trigger t[a..b]} :: a <= b <= |t| && tokenize(t[a..b]).Ok? && tokenize(t[a..b]).value > LARGE_RANGE
  }

  /** A content range and the separator range behind it. */
  datatype Span = Span(contentStart: nat, contentEnd: nat, separatorStart: nat, separatorEnd: nat)

  datatype Segment = Segment(span: Span, pieces: nat)

  // ---------------------------------------------------------------------------------- what a segmentation is

  /** A well-placed range: whitespace only behind the content, no line break inside it. */
  ghost predicate SpanOk(t: Text, s: Span) {
    && s.contentStart <= s.contentEnd == s.separatorStart <= s.separatorEnd <= |t|
    && Boundary(t, s.contentStart) && Boundary(t, s.contentEnd) && Boundary(t, s.separatorEnd)
    && NoNewline(t, s.contentStart, s.contentEnd)
    && AllWhite(t, s.separatorStart, s.separatorEnd)
  }

  ghost predicate Counted(tokenize: Tokenizer, t: Text, start: nat, end: nat, pieces: nat) {
    start <= end <= |t| && tokenize(t[start..end]) == Ok(pieces)
  }

  ghost predicate SegmentOk(t: Text, tokenize: Tokenizer, maxPieces: nat, s: Segment) {
    && SpanOk(t, s.span) && s.pieces <= maxPieces
    && Counted(tokenize, t, s.span.contentStart, s.span.contentEnd, s.pieces)
  }

  ghost predicate SegmentsOk(t: Text, tokenize: Tokenizer, maxPieces: nat, segments: seq<Segment>) {
    |segments| <= MAX_SEGMENTS && forall i :: 0 <= i < |segments| ==> SegmentOk(t, tokenize, maxPieces, segments[i])
  }

  function Spans(segments: seq<Segment>): (spans: seq<Span>)
    ensures |spans| == |segments|
  {
    seq(|segments|, i requires 0 <= i < |segments| => segments[i].span)
  }

  /** The ranges follow each other without gap or overlap and cover `from..to`. */
  ghost predicate Tiles(spans: seq<Span>, from: nat, to: nat) {
    if spans == [] then from == to
    else
      var last := spans[|spans| - 1];
      && last.contentStart <= last.contentEnd == last.separatorStart <= last.separatorEnd == to
      && Tiles(spans[..|spans| - 1], from, last.contentStart)
  }

  lemma TilesAppend(spans: seq<Span>, from: nat, s: Span)
    requires Tiles(spans, from, s.contentStart)
    requires s.contentStart <= s.contentEnd == s.separatorStart <= s.separatorEnd
    ensures Tiles(spans + [s], from, s.separatorEnd)
  {
    assert (spans + [s])[..|spans|] == spans;
  }

  lemma {:induction false} TilesStart(spans: seq<Span>, from: nat, other: nat, to: nat)
    requires Tiles(spans, from, to) && Tiles(spans, other, to)
    ensures from == other
  {
    if spans != [] { TilesStart(spans[..|spans| - 1], from, other, spans[|spans| - 1].contentStart); }
  }

  /** The ranges partition the text. */
  ghost predicate Lossless(t: Text, segments: seq<Segment>) {
    Tiles(Spans(segments), 0, |t|)
  }

  /** Every scalar that is not whitespace lies in exactly one content range of a tiling. */
  lemma {:induction false} InOneContent(t: Text, spans: seq<Span>, from: nat, to: nat, i: nat) returns (k: nat)
    requires Tiles(spans, from, to) && forall j :: 0 <= j < |spans| ==> SpanOk(t, spans[j])
    requires from <= i < to && Boundary(t, i) && !White(t, i)
    ensures k < |spans| && spans[k].contentStart <= i < spans[k].contentEnd
    ensures forall j :: 0 <= j < |spans| && j != k ==> !(spans[j].contentStart <= i < spans[j].contentEnd)
  {
    if spans == [] {
      assert false;
    } else {
      var last := |spans| - 1;
      var s := spans[last];
      assert SpanOk(t, s);
      assert !(s.separatorStart <= i < s.separatorEnd);
      if i < s.contentStart {
        k := InOneContent(t, spans[..last], from, s.contentStart, i);
        assert forall j :: 0 <= j < last ==> spans[..last][j] == spans[j];
      } else {
        k := last;
        forall j | 0 <= j < last ensures spans[j].contentEnd <= s.contentStart {
          EarlierEnds(spans[..last], from, s.contentStart, j);
        }
      }
    }
  }

  lemma {:induction false} EarlierEnds(spans: seq<Span>, from: nat, to: nat, j: nat)
    requires Tiles(spans, from, to) && j < |spans|
    ensures spans[j].contentEnd <= to
  {
    var last := |spans| - 1;
    if j < last { EarlierEnds(spans[..last], from, spans[last].contentStart, j); }
  }

  /** A line break with nothing but whitespace before it. */
  ghost predicate LeadingNewline(t: Text) {
    exists k: nat :: k < |t| && IsNewline(t[k]) && AllWhite(t, 0, k)
  }

  lemma NotLeading(t: Text, e: nat)
    requires Valid(t) && e < |t| && Boundary(t, e) && !White(t, e) && NoNewline(t, 0, e)
    ensures !LeadingNewline(t)
  {
    if LeadingNewline(t) {
      var k: nat :| k < |t| && IsNewline(t[k]) && AllWhite(t, 0, k);
      NewlineIsWhite(t, e);
      NextFacts(t, e);
    }
  }

  /** When the tokenizer gives the empty text more pieces than allowed, exactly these texts lose their leading whitespace. */
  ghost predicate Drops(t: Text, tokenize: Tokenizer, maxPieces: nat) {
    && t != [] && (AllWhite(t, 0, |t|) || LeadingNewline(t))
    && tokenize([]).Ok? && tokenize([]).value > maxPieces
  }

  // ---------------------------------------------------------------------------------- memoised counting

  lemma {:induction false} RangesEndingAt(ranges: set<(nat, nat)>, n: nat, end: nat)
    requires forall r :: r in ranges ==> r.0 < n && r.1 == end
    ensures |ranges| <= n
  {
    if n == 0 {
      assert ranges == {};
    } else {
      RangesEndingAt(ranges - {(n - 1, end)}, n - 1, end);
    }
  }

  function RangeCount(n: nat): nat {
    if n == 0 then 0 else RangeCount(n - 1) + n
  }

  lemma {:induction false} RangeCountClosed(n: nat)
    ensures 2 * RangeCount(n) == n * (n + 1)
  {
    if n > 0 { RangeCountClosed(n - 1); }
  }

  /** How many ranges a text has. */
  lemma {:induction false} RangesWithin(ranges: set<(nat, nat)>, n: nat)
    requires forall r :: r in ranges ==> r.0 <= r.1 < n
    ensures |ranges| <= RangeCount(n)
  {
    if n == 0 {
      assert ranges == {};
    } else {
      var last := set r | r in ranges && r.1 == n - 1;
      RangesEndingAt(last, n, n - 1);
      var rest := ranges - last;
      RangesWithin(rest, n - 1);
      assert ranges == rest + last;
    }
  }

  /** A short text has fewer ranges than the tokenizer may be asked for. */
  lemma ShortTextHasFewRanges(cache: map<(nat, nat), nat>, size: nat)
    requires size <= SHORT_TEXT && forall r :: r in cache ==> r.0 <= r.1 <= size
    ensures |cache| < MAX_ENCODING_CALLS
  {
    RangesWithin(cache.Keys, SHORT_TEXT + 1);
    RangeCountClosed(SHORT_TEXT + 1);
    assert |cache.Keys| == |cache|;
  }

  /** The bytes of this many ranges of a text of this size. */
  function RangesBytes(size: nat, calls: nat): nat {
    if calls == 0 then 0 else RangesBytes(size, calls - 1) + size
  }

  lemma {:induction false} RangesBytesBound(size: nat, calls: nat)
    requires size <= SHORT_TEXT
    ensures RangesBytes(size, calls) <= SHORT_TEXT * calls
  {
    if calls > 0 { RangesBytesBound(size, calls - 1); }
  }

  lemma BytesGrow(size: nat, calls: nat, bytes: nat, more: nat)
    requires bytes <= RangesBytes(size, calls) && more <= size
    ensures bytes + more <= RangesBytes(size, calls + 1)
    ensures size <= SHORT_TEXT && calls < MAX_ENCODING_CALLS ==> bytes + more <= MAX_ENCODING_BYTES
  {
    if size <= SHORT_TEXT { RangesBytesBound(size, calls + 1); }
  }

  /** A range whose pieces are to be counted. */
  type Ask = (nat, nat)

  /** A result, and the ranges whose pieces it depends on, in the order in which they are asked for. */
  datatype Traced<T> = Traced(value: Result<T, Error>, asks: seq<Ask>)

  function Behind<T>(asks: seq<Ask>, x: Traced<T>): Traced<T> {
    Traced(x.value, asks + x.asks)
  }

  function Answer(t: Text, tokenize: Tokenizer, ask: Ask): Result<nat, string> {
    if ask.0 <= ask.1 <= |t| then tokenize(t[ask.0..ask.1]) else Err("range")
  }

  function PiecesAt(t: Text, tokenize: Tokenizer, start: nat, end: nat): nat {
    var answer := Answer(t, tokenize, (start, end));
    if answer.Ok? then answer.value else 0
  }

  function OneCall(ask: Ask): nat {
    1
  }

  function RangeBytes(ask: Ask): nat {
    if ask.0 <= ask.1 then ask.1 - ask.0 else 0
  }

  function RangePieces(t: Text, tokenize: Tokenizer): Ask -> nat {
    (ask: Ask) => PiecesAt(t, tokenize, ask.0, ask.1)
  }

  /** What the ranges cost, each counted when it is asked for first. */
  function Spent(cost: Ask -> nat, asks: seq<Ask>): nat {
    if asks == [] then 0
    else
      var front, last := asks[..|asks| - 1], asks[|asks| - 1];
      Spent(cost, front) + if last in front then 0 else cost(last)
  }

  /** The tokenizer answers for all these ranges, and they stay within the three work limits. */
  ghost predicate Affordable(t: Text, tokenize: Tokenizer, asks: seq<Ask>) {
    && (forall ask {:trigger ask in asks} :: ask in asks ==> Answer(t, tokenize, ask).Ok?)
    && Spent(OneCall, asks) <= MAX_ENCODING_CALLS && Spent(RangeBytes, asks) <= MAX_ENCODING_BYTES
    && Spent(RangePieces(t, tokenize), asks) <= MAX_COUNTED_PIECES
  }

  /** What can be asked for, as a function of its own, so that proofs need not look into it. */
  type Budget = seq<Ask> -> bool

  ghost predicate IsBudget(afford: Budget, t: Text, tokenize: Tokenizer) {
    forall asks {:trigger Affordable(t, tokenize, asks)} :: afford(asks) <==> Affordable(t, tokenize, asks)
  }

  ghost function BudgetFor(t: Text, tokenize: Tokenizer): (afford: Budget)
    ensures IsBudget(afford, t, tokenize)
  {
    asks => Affordable(t, tokenize, asks)
  }

  lemma SpentOnce(cost: Ask -> nat, asks: seq<Ask>, ask: Ask)
    ensures Spent(cost, asks + [ask]) == Spent(cost, asks) + if ask in asks then 0 else cost(ask)
  {
    assert (asks + [ask])[..|asks|] == asks;
  }

  lemma {:induction false} SpentGrows(cost: Ask -> nat, asks: seq<Ask>, more: seq<Ask>)
    ensures Spent(cost, asks) <= Spent(cost, asks + more)
  {
    if more == [] {
      assert asks + more == asks;
    } else {
      var front, last := more[..|more| - 1], more[|more| - 1];
      SpentGrows(cost, asks, front);
      SpentOnce(cost, asks + front, last);
      assert asks + more == (asks + front) + [last];
    }
  }

  /** What is too much stays too much. */
  lemma Unaffordable(afford: Budget, t: Text, tokenize: Tokenizer, asks: seq<Ask>, all: seq<Ask>)
    requires IsBudget(afford, t, tokenize) && asks <= all && afford(all)
    ensures afford(asks)
  {
    assert Affordable(t, tokenize, all) && (afford(asks) <==> Affordable(t, tokenize, asks));
    assert all == asks + all[|asks|..];
    SpentGrows(OneCall, asks, all[|asks|..]);
    SpentGrows(RangeBytes, asks, all[|asks|..]);
    SpentGrows(RangePieces(t, tokenize), asks, all[|asks|..]);
    forall ask | ask in asks ensures Answer(t, tokenize, ask).Ok? { assert ask in all; }
  }

  /** If what must be asked for can be afforded, the result is the expected one; if not, it is an error. */
  ghost predicate Outcome<T>(afford: Budget, goal: Traced<T>, r: Result<T, Error>, asked: seq<Ask>) {
    if afford(goal.asks) then r == goal.value && asked == goal.asks else r.Err?
  }

  /** The ranges of a first part come first. */
  lemma Onward<T>(goal: Traced<T>, asked: seq<Ask>, asks: seq<Ask>, rest: Traced<T>)
    requires goal == Behind(asked, Behind(asks, rest))
    ensures goal == Behind(asked + asks, rest) && asked + asks <= goal.asks
  {
    assert asked + (asks + rest.asks) == (asked + asks) + rest.asks;
  }

  /** A part that fails makes the whole fail. */
  lemma PartFails<S, T>(counter: PieceCounter, goal: Traced<T>, asked: seq<Ask>, part: Traced<S>, rest: Traced<T>, r: Result<S, Error>,
                        after: seq<Ask>)
    requires IsBudget(counter.afford, counter.text, counter.tokenize)
    requires goal == Behind(asked, Behind(part.asks, rest)) && Outcome(counter.afford, Behind(asked, part), r, after) && r.Err?
    requires part.value.Err? ==> rest == Traced(Err(part.value.error), [])
    ensures Outcome(counter.afford, goal, Err(r.error), after)
  {
    Onward(goal, asked, part.asks, rest);
    if counter.afford(goal.asks) { Unaffordable(counter.afford, counter.text, counter.tokenize, asked + part.asks, goal.asks); }
  }

  /** A part that succeeds leads on to the rest. */
  lemma PartDone<S, T>(afford: Budget, goal: Traced<T>, asked: seq<Ask>, part: Traced<S>, rest: Traced<T>, r: Result<S, Error>,
                       after: seq<Ask>)
    requires goal == Behind(asked, Behind(part.asks, rest)) && Outcome(afford, Behind(asked, part), r, after) && r.Ok?
    ensures r == part.value && after == asked + part.asks && goal == Behind(after, rest)
  {
    Onward(goal, asked, part.asks, rest);
  }

  /** One range, for its number of pieces. */
  ghost function CountOf(t: Text, tokenize: Tokenizer, start: nat, end: nat): Traced<nat> {
    Traced(Ok(PiecesAt(t, tokenize, start, end)), [(start, end)])
  }

  /** What has been asked for is what is cached, and what it cost is what is counted. */
  ghost predicate Accounted(t: Text, tokenize: Tokenizer, asked: seq<Ask>, cached: set<Ask>, calls: nat, bytes: nat, pieces: nat) {
    && (forall ask {:trigger ask in cached} {:trigger ask in asked} :: ask in cached <==> ask in asked)
    && (forall ask {:trigger ask in asked} :: ask in asked ==> Answer(t, tokenize, ask).Ok?)
    && calls == Spent(OneCall, asked) && bytes == Spent(RangeBytes, asked) && pieces == Spent(RangePieces(t, tokenize), asked)
  }

  type Ledger = (seq<Ask>, set<Ask>, nat, nat, nat) -> bool

  ghost predicate IsLedger(ledger: Ledger, t: Text, tokenize: Tokenizer) {
    forall asked, cached, calls: nat, bytes: nat, pieces: nat {:trigger Accounted(t, tokenize, asked, cached, calls, bytes, pieces)} ::
      ledger(asked, cached, calls, bytes, pieces) <==> Accounted(t, tokenize, asked, cached, calls, bytes, pieces)
  }

  ghost function LedgerFor(t: Text, tokenize: Tokenizer): (ledger: Ledger)
    ensures IsLedger(ledger, t, tokenize)
  {
    (asked, cached, calls: nat, bytes: nat, pieces: nat) => Accounted(t, tokenize, asked, cached, calls, bytes, pieces)
  }

  /** Asking again costs nothing. */
  lemma AskAgain(ledger: Ledger, afford: Budget, t: Text, tokenize: Tokenizer, asked: seq<Ask>, cached: set<Ask>, calls: nat, bytes: nat,
                 pieces: nat, ask: Ask)
    requires IsLedger(ledger, t, tokenize) && IsBudget(afford, t, tokenize)
    requires ledger(asked, cached, calls, bytes, pieces) && ask in cached
    requires calls <= MAX_ENCODING_CALLS && bytes <= MAX_ENCODING_BYTES && pieces <= MAX_COUNTED_PIECES
    ensures ledger(asked + [ask], cached, calls, bytes, pieces) && afford(asked + [ask])
  {
    assert Accounted(t, tokenize, asked, cached, calls, bytes, pieces);
    SpentOnce(OneCall, asked, ask);
    SpentOnce(RangeBytes, asked, ask);
    SpentOnce(RangePieces(t, tokenize), asked, ask);
    assert Accounted(t, tokenize, asked + [ask], cached, calls, bytes, pieces);
    assert Affordable(t, tokenize, asked + [ask]);
  }

  lemma CostsOnce(t: Text, tokenize: Tokenizer, asked: seq<Ask>, cached: set<Ask>, calls: nat, bytes: nat, pieces: nat, ask: Ask)
    requires Accounted(t, tokenize, asked, cached, calls, bytes, pieces) && ask !in cached && ask.0 <= ask.1
    requires Answer(t, tokenize, ask).Ok?
    ensures Accounted(t, tokenize, asked + [ask], cached + {ask}, calls + 1, bytes + (ask.1 - ask.0), pieces + Answer(t, tokenize, ask).value)
  {
    SpentOnce(OneCall, asked, ask);
    SpentOnce(RangeBytes, asked, ask);
    SpentOnce(RangePieces(t, tokenize), asked, ask);
    forall other ensures other in asked + [ask] <==> other in asked || other == ask {}
  }

  lemma AffordsOnce(t: Text, tokenize: Tokenizer, asked: seq<Ask>, cached: set<Ask>, calls: nat, bytes: nat, pieces: nat, ask: Ask)
    requires Accounted(t, tokenize, asked, cached, calls, bytes, pieces) && ask !in cached && ask.0 <= ask.1
    ensures Affordable(t, tokenize, asked + [ask]) <==>
              && Answer(t, tokenize, ask).Ok? && calls + 1 <= MAX_ENCODING_CALLS && bytes + (ask.1 - ask.0) <= MAX_ENCODING_BYTES
              && pieces + Answer(t, tokenize, ask).value <= MAX_COUNTED_PIECES
  {
    assert ask in asked + [ask];
    if Answer(t, tokenize, ask).Ok? { CostsOnce(t, tokenize, asked, cached, calls, bytes, pieces, ask); }
  }

  /** One more range of this size would exceed a work limit. */
  predicate Exceeds(counted: Result<nat, string>, calls: nat, bytes: nat, pieces: nat, size: nat) {
    calls >= MAX_ENCODING_CALLS || bytes + size > MAX_ENCODING_BYTES || (counted.Ok? && pieces + counted.value > MAX_COUNTED_PIECES)
  }

  /** When asking for one more range is too much. */
  lemma AskOnce(ledger: Ledger, afford: Budget, t: Text, tokenize: Tokenizer, asked: seq<Ask>, cached: set<Ask>, calls: nat, bytes: nat,
                pieces: nat, start: nat, end: nat)
    requires IsLedger(ledger, t, tokenize) && IsBudget(afford, t, tokenize)
    requires ledger(asked, cached, calls, bytes, pieces) && (start, end) !in cached && start <= end <= |t|
    ensures afford(asked + [(start, end)]) <==> tokenize(t[start..end]).Ok? && !Exceeds(tokenize(t[start..end]), calls, bytes, pieces, end - start)
  {
    assert Accounted(t, tokenize, asked, cached, calls, bytes, pieces);
    AffordsOnce(t, tokenize, asked, cached, calls, bytes, pieces, (start, end));
  }

  /** What asking for one more range costs. */
  lemma Booked(ledger: Ledger, t: Text, tokenize: Tokenizer, asked: seq<Ask>, cached: set<Ask>, calls: nat, bytes: nat, pieces: nat,
               start: nat, end: nat, counted: nat, cached': set<Ask>, calls': nat, bytes': nat, pieces': nat)
    requires IsLedger(ledger, t, tokenize) && ledger(asked, cached, calls, bytes, pieces) && (start, end) !in cached
    requires Counted(tokenize, t, start, end, counted) && cached' == cached + {(start, end)}
    requires calls' == calls + 1 && bytes' == bytes + (end - start) && pieces' == pieces + counted
    ensures ledger(asked + [(start, end)], cached', calls', bytes', pieces')
  {
    assert Accounted(t, tokenize, asked, cached, calls, bytes, pieces);
    CostsOnce(t, tokenize, asked, cached, calls, bytes, pieces, (start, end));
    assert Accounted(t, tokenize, asked + [(start, end)], cached', calls', bytes', pieces');
  }

  lemma KeyAdded(cache: map<Ask, nat>, ask: Ask, pieces: nat)
    ensures cache[ask := pieces].Keys == cache.Keys + {ask}
  {
  }

  /** `PieceCounter`: asks the tokenizer at most once for a range, within fixed budgets. */
  class PieceCounter {
    const text: Text
    const tokenize: Tokenizer
    var cache: map<(nat, nat), nat>
    var calls: nat
    var bytes: nat
    var pieces: nat
    ghost var asked: seq<Ask>
    ghost const afford: Budget
    ghost const ledger: Ledger

    ghost predicate Valid()
      reads this
    {
      && Sane() && ledger(asked, cache.Keys, calls, bytes, pieces) && afford(asked)
      && IsBudget(afford, text, tokenize) && IsLedger(ledger, text, tokenize)
    }

    ghost predicate Sane()
      reads this`cache, this`calls, this`bytes, this`pieces
    {
      && (forall a: nat, b: nat {:trigger cache[(a, b)]} :: (a, b) in cache ==> Counted(tokenize, text, a, b, cache[(a, b)]))
      && |cache| == calls <= MAX_ENCODING_CALLS && bytes <= MAX_ENCODING_BYTES && pieces <= MAX_COUNTED_PIECES
      && bytes <= RangesBytes(|text|, calls) && (pieces <= LARGE_RANGE * calls || HasLargeRange(text, tokenize))
    }

    constructor (text: Text, tokenize: Tokenizer)
      ensures Valid() && this.text == text && this.tokenize == tokenize && asked == []
    {
      this.text, this.tokenize, afford, ledger := text, tokenize, BudgetFor(text, tokenize), LedgerFor(text, tokenize);
      cache, calls, bytes, pieces, asked := map[], 0, 0, 0, [];
      assert Accounted(text, tokenize, [], {}, 0, 0, 0) && Affordable(text, tokenize, []);
    }

    /** One more range would exceed a work limit. */
    ghost predicate TooMuch(start: nat, end: nat)
      requires start <= end <= |text|
      reads this`calls, this`bytes, this`pieces
    {
      Exceeds(tokenize(text[start..end]), calls, bytes, pieces, end - start)
    }

    lemma Exhausted(start: nat, end: nat)
      requires Sane() && start <= end <= |text| && TooMuch(start, end)
      ensures |text| > SHORT_TEXT || HasLargeRange(text, tokenize)
    {
      if |text| <= SHORT_TEXT {
        ShortTextHasFewRanges(cache, |text|);
        BytesGrow(|text|, calls, bytes, end - start);
      }
    }

    method Count(start: nat, end: nat) returns (r: Result<nat, Error>)
      requires Valid() && start <= end <= |text|
      modifies this
      ensures r.Ok? ==> Valid() && Counted(tokenize, text, start, end, r.value) && (start, end) in cache
      ensures r.Ok? && (start, end) in old(cache) ==> cache == old(cache) && calls == old(calls)
      ensures r.Ok? && (start, end) !in old(cache) ==>
                && cache == old(cache)[(start, end) := r.value] && calls == old(calls) + 1
                && bytes == old(bytes) + (end - start) && pieces == old(pieces) + r.value
      ensures r.Err? ==> (start, end) !in old(cache) && (r.error == EncodingWorkLimit || r.error == Encoding(start, end))
      ensures r == Err(Encoding(start, end)) ==> tokenize(text[start..end]).Err?
      ensures r == Err(EncodingWorkLimit) ==> old(TooMuch(start, end))
      ensures forall maxPieces: nat :: r.Err? ==> Explained(text, tokenize, maxPieces, r.error)
      ensures Outcome(afford, Behind(old(asked), CountOf(text, tokenize, start, end)), r, asked)
    {
      if (start, end) in cache {
        AskAgain(ledger, afford, text, tokenize, asked, cache.Keys, calls, bytes, pieces, (start, end));
        asked := asked + [(start, end)];
        return Ok(cache[(start, end)]);
      }
      if TooMuch(start, end) { Exhausted(start, end); }
      r := CountFresh(start, end);
    }

    method CountFresh(start: nat, end: nat) returns (r: Result<nat, Error>)
      requires Valid() && start <= end <= |text| && (start, end) !in cache
      modifies this
      ensures r.Ok? ==> Valid() && Counted(tokenize, text, start, end, r.value)
      ensures r.Ok? ==>
                && cache == old(cache)[(start, end) := r.value] && calls == old(calls) + 1
                && bytes == old(bytes) + (end - start) && pieces == old(pieces) + r.value
      ensures r.Err? ==> r.error == EncodingWorkLimit || r.error == Encoding(start, end)
      ensures r == Err(Encoding(start, end)) ==> tokenize(text[start..end]).Err?
      ensures r == Err(EncodingWorkLimit) ==> old(TooMuch(start, end))
      ensures r.Ok? <==> afford(old(asked) + [(start, end)])
      ensures r.Ok? ==> asked == old(asked) + [(start, end)]
    {
      AskOnce(ledger, afford, text, tokenize, asked, cache.Keys, calls, bytes, pieces, start, end);
      ghost var before, calls', bytes', pieces' := cache, calls, bytes, pieces;
      r := CountNew(start, end);
      if r.Ok? {
        KeyAdded(before, (start, end), r.value);
        Booked(ledger, text, tokenize, asked, before.Keys, calls', bytes', pieces', start, end, r.value, cache.Keys, calls, bytes, pieces);
        asked := asked + [(start, end)];
      }
    }

    method CountNew(start: nat, end: nat) returns (r: Result<nat, Error>)
      requires Sane() && start <= end <= |text| && (start, end) !in cache
      modifies `cache, `calls, `bytes, `pieces
      ensures r.Ok? ==> Sane() && Counted(tokenize, text, start, end, r.value)
      ensures r.Ok? ==>
                && cache == old(cache)[(start, end) := r.value] && calls == old(calls) + 1
                && bytes == old(bytes) + (end - start) && pieces == old(pieces) + r.value
      ensures r.Err? ==> r.error == EncodingWorkLimit || r.error == Encoding(start, end)
      ensures r == Err(Encoding(start, end)) ==> tokenize(text[start..end]).Err?
      ensures r == Err(EncodingWorkLimit) ==> old(TooMuch(start, end))
      ensures r.Ok? <==> tokenize(text[start..end]).Ok? && !old(TooMuch(start, end))
    {
      BytesGrow(|text|, calls, bytes, end - start);
      calls := calls + 1;
      if calls > MAX_ENCODING_CALLS { return Err(EncodingWorkLimit); }
      bytes := bytes + (end - start);
      if bytes > MAX_ENCODING_BYTES { return Err(EncodingWorkLimit); }
      var counted := tokenize(text[start..end]);
      if counted.Err? { return Err(Encoding(start, end)); }
      pieces := pieces + counted.value;
      if pieces > MAX_COUNTED_PIECES { return Err(EncodingWorkLimit); }
      cache := cache[(start, end) := counted.value];
      return Ok(counted.value);
    }
  }

  // ---------------------------------------------------------------------------------- sentence units

  predicate IsTerminator(c: nat) {
    c == 0x2E || c == 0x21 || c == 0x3F || c == 0x3002 || c == 0xFF01 || c == 0xFF1F || c == 0x2026
  }

  predicate IsClosingMark(c: nat) {
    c == 0x22 || c == 0x27 || c == 0x2019 || c == 0x201D || c == 0xBB || c == 0x29 || c == 0x5D || c == 0x7D
    || c == 0x3009 || c == 0x300B || c == 0x300D || c == 0x300F || c == 0x3011 || c == 0x3015 || c == 0x3017
    || c == 0x3019 || c == 0x301B
  }

  predicate TerminatorAt(t: Text, i: nat) {
    i < |t| && i + Width(t[i]) <= |t| && IsTerminator(Scalar(t, i))
  }

  predicate ClosingMarkAt(t: Text, i: nat) {
    i < |t| && i + Width(t[i]) <= |t| && IsClosingMark(Scalar(t, i))
  }

  /** Where the terminators from `i` on end. */
  function RunEnd(t: Text, i: nat, end: nat): nat
    decreases end - i
  {
    if i < end && TerminatorAt(t, i) then RunEnd(t, Next(t, i), end) else i
  }

  /** Where the closing marks from `i` on end. */
  function MarksEnd(t: Text, i: nat, end: nat): nat
    decreases end - i
  {
    if i < end && ClosingMarkAt(t, i) then MarksEnd(t, Next(t, i), end) else i
  }

  method ConsumeTerminators(t: Text, from: nat, end: nat) returns (index: nat)
    requires Valid(t) && from <= end <= |t| && Boundary(t, from) && Boundary(t, end)
    ensures from <= index <= end && Boundary(t, index) && NoNewline(t, from, index) && index == RunEnd(t, from, end)
    ensures from < end && TerminatorAt(t, from) ==> Next(t, from) <= index
  {
    index := from;
    while index < end
      invariant from <= index <= end && Boundary(t, index) && NoNewline(t, from, index)
      invariant RunEnd(t, index, end) == RunEnd(t, from, end)
      invariant from < end && TerminatorAt(t, from) ==> index == from || Next(t, from) <= index
      decreases end - index
    {
      StepWithin(t, index, end);
      if !IsTerminator(Scalar(t, index)) { break; }
      NewlineIsWhite(t, index);
      index := Next(t, index);
    }
  }

  method ConsumeClosingMarks(t: Text, from: nat, end: nat) returns (index: nat)
    requires Valid(t) && from <= end <= |t| && Boundary(t, from) && Boundary(t, end)
    ensures from <= index <= end && Boundary(t, index) && NoNewline(t, from, index) && index == MarksEnd(t, from, end)
  {
    index := from;
    while index < end
      invariant from <= index <= end && Boundary(t, index) && NoNewline(t, from, index)
      invariant MarksEnd(t, index, end) == MarksEnd(t, from, end)
      decreases end - index
    {
      StepWithin(t, index, end);
      if !IsClosingMark(Scalar(t, index)) { break; }
      NewlineIsWhite(t, index);
      index := Next(t, index);
    }
  }

  // ---------------------------------------------------------------------------------- where sentences end

  type PeriodRule = (Text, nat, nat) -> bool

  /** A terminator whose predecessor is none. */
  ghost predicate RunStart(t: Text, i: nat) {
    Boundary(t, i) && TerminatorAt(t, i) && forall p: nat {:trigger TerminatorAt(t, p)} :: p < i && Boundary(t, p) && TerminatorAt(t, p) ==> Next(t, p) != i
  }

  /** Where the sentence with its terminators at `i` would end. */
  function SentenceEnd(t: Text, i: nat, end: nat): nat {
    MarksEnd(t, RunEnd(t, i, end), end)
  }

  /** The terminators at `i` end a sentence: whitespace or the end of the text follows, and a period must be allowed to. */
  predicate EndsSentence(t: Text, periodEnds: PeriodRule, i: nat, end: nat) {
    && TerminatorAt(t, i) && (SentenceEnd(t, i, end) == end || White(t, SentenceEnd(t, i, end)))
    && (Scalar(t, i) != 0x2E || periodEnds(t, i, SentenceEnd(t, i, end)))
  }

  /** No sentence ends in the range. */
  ghost predicate NoEnd(t: Text, periodEnds: PeriodRule, from: nat, to: nat, end: nat) {
    forall i: nat {:trigger RunStart(t, i)} :: from <= i < to && RunStart(t, i) ==> !EndsSentence(t, periodEnds, i, end)
  }

  /** A unit holds one sentence: none ends before the unit does, and the unit ends with a sentence, at a line break, or with the text. */
  ghost predicate OneSentence(t: Text, periodEnds: PeriodRule, s: Span, end: nat) {
    && (forall i: nat {:trigger RunStart(t, i)} :: s.contentStart <= i < s.contentEnd && RunStart(t, i) && EndsSentence(t, periodEnds, i, end)
          ==> SentenceEnd(t, i, end) == s.contentEnd)
    && (|| (exists i: nat :: s.contentStart <= i < s.contentEnd && EndsSentence(t, periodEnds, i, end) && SentenceEnd(t, i, end) == s.contentEnd)
        || HasNewline(t, s.separatorStart, s.separatorEnd)
        || s.contentEnd == end)
  }

  ghost predicate HasNewline(t: Text, from: nat, to: nat) {
    exists k: nat :: from <= k < to && k < |t| && IsNewline(t[k])
  }

  /** Inside a run of terminators nothing starts a run. */
  lemma {:induction false} InsideRun(t: Text, i: nat, end: nat, k: nat)
    requires Valid(t) && i < end <= |t| && Boundary(t, i) && Boundary(t, end) && i < k < RunEnd(t, i, end) && Boundary(t, k)
    ensures !RunStart(t, k)
    decreases end - i
  {
    StepWithin(t, i, end);
    NextFacts(t, i);
    if TerminatorAt(t, i) {
      if Next(t, i) < k { InsideRun(t, Next(t, i), end, k); }
    }
  }

  /** Between terminators and the end of the closing marks nothing starts a run. */
  lemma {:induction false} InsideMarks(t: Text, i: nat, end: nat, k: nat)
    requires Valid(t) && i <= end <= |t| && Boundary(t, i) && Boundary(t, end) && i <= k < MarksEnd(t, i, end) && Boundary(t, k)
    ensures !RunStart(t, k)
    decreases end - i
  {
    if i < end && ClosingMarkAt(t, i) && i < k {
      StepWithin(t, i, end);
      NextFacts(t, i);
      InsideMarks(t, Next(t, i), end, k);
    }
  }

  /** The text without its trailing whitespace ends at `end`. */
  ghost predicate Trimmed(t: Text, end: nat) {
    && end <= |t| && Boundary(t, end) && AllWhite(t, end, |t|)
    && (end > 0 ==> exists last: nat :: last < end && Boundary(t, last) && Next(t, last) == end && !White(t, last))
  }

  ghost predicate NonEmpty(s: Span) {
    s.contentStart < s.contentEnd
  }

  /** Units found so far: they tile the text up to the cursor, and only a leading line break leaves an empty one. */
  ghost predicate UnitsTo(t: Text, units: seq<Span>, cursor: nat) {
    && Tiles(units, 0, cursor)
    && (forall i :: 0 <= i < |units| ==> SpanOk(t, units[i]) && units[i].contentStart < units[i].separatorEnd)
    && (forall i :: 0 < i < |units| ==> NonEmpty(units[i]))
    && (units != [] ==> (NonEmpty(units[0]) <==> !LeadingNewline(t)))
    && (units == [] ==> cursor == 0)
  }

  lemma UnitsAppend(t: Text, units: seq<Span>, s: Span)
    requires UnitsTo(t, units, s.contentStart) && SpanOk(t, s) && s.contentStart < s.separatorEnd
    requires if units == [] then NonEmpty(s) <==> !LeadingNewline(t) else NonEmpty(s)
    ensures UnitsTo(t, units + [s], s.separatorEnd)
  {
    TilesAppend(units, 0, s);
  }

  /** Between two steps of the scan. */
  ghost predicate Scanning(t: Text, contentEnd: nat, units: seq<Span>, cursor: nat, index: nat) {
    && cursor <= index <= contentEnd <= |t| && Boundary(t, cursor) && Boundary(t, index) && Boundary(t, contentEnd)
    && UnitsTo(t, units, cursor) && NoNewline(t, cursor, index)
    && (if units == [] then index > 0 ==> !LeadingNewline(t) else index > 0)
    && (units != [] && index == cursor < contentEnd ==> !White(t, index))
  }

  /** The units found so far hold one sentence each, and none ends between the cursor and the scan. */
  ghost predicate Splitting(t: Text, periodEnds: PeriodRule, end: nat, units: seq<Span>, cursor: nat, index: nat) {
    AllOne(t, periodEnds, units, end) && NoEnd(t, periodEnds, cursor, index, end)
  }

  ghost predicate AllOne(t: Text, periodEnds: PeriodRule, units: seq<Span>, end: nat) {
    forall k: nat {:trigger OneSentence(t, periodEnds, units[k], end)} :: k < |units| ==> OneSentence(t, periodEnds, units[k], end)
  }

  /** Terminators at `index`, whose run ends at `punctuationEnd`, start the only run up to the end of their marks. */
  lemma OnlyRunStart(t: Text, index: nat, end: nat, k: nat)
    requires Valid(t) && index < k <= end <= |t| && Boundary(t, index) && Boundary(t, end) && RunStart(t, k)
    requires Boundary(t, RunEnd(t, index, end)) && RunEnd(t, index, end) <= end
    ensures k >= SentenceEnd(t, index, end)
  {
    var p := RunEnd(t, index, end);
    if k < p { InsideRun(t, index, end, k); }
    if p <= k < MarksEnd(t, p, end) { InsideMarks(t, p, end, k); }
  }

  lemma TerminatorCloses(t: Text, periodEnds: PeriodRule, end: nat, cursor: nat, index: nat, unit: Span)
    requires Valid(t) && cursor <= index < end <= |t| && Boundary(t, index) && Boundary(t, end)
    requires Boundary(t, RunEnd(t, index, end)) && RunEnd(t, index, end) <= end && index < SentenceEnd(t, index, end) <= end
    requires NoEnd(t, periodEnds, cursor, index, end) && EndsSentence(t, periodEnds, index, end)
    requires unit.contentStart == cursor && unit.contentEnd == SentenceEnd(t, index, end)
    ensures OneSentence(t, periodEnds, unit, end)
  {
    forall i: nat | unit.contentStart <= i < unit.contentEnd && RunStart(t, i) && EndsSentence(t, periodEnds, i, end)
      ensures SentenceEnd(t, i, end) == unit.contentEnd
    {
      if i > index { OnlyRunStart(t, index, end, i); }
    }
  }

  lemma NoEndExtends(t: Text, periodEnds: PeriodRule, from: nat, middle: nat, to: nat, end: nat)
    requires NoEnd(t, periodEnds, from, middle, end) && NoEnd(t, periodEnds, middle, to, end)
    ensures NoEnd(t, periodEnds, from, to, end)
  {
  }

  /** A terminator that ends no sentence, and the rest of its run, can be passed. */
  lemma TerminatorPasses(t: Text, periodEnds: PeriodRule, end: nat, index: nat, later: nat)
    requires Valid(t) && index < end <= |t| && Boundary(t, index) && Boundary(t, end)
    requires !EndsSentence(t, periodEnds, index, end) && later == RunEnd(t, index, end)
    ensures NoEnd(t, periodEnds, index, later, end)
  {
    forall i: nat | index < i < later && Boundary(t, i) ensures !RunStart(t, i) {
      InsideRun(t, index, end, i);
    }
  }

  lemma WhitespacePasses(t: Text, periodEnds: PeriodRule, end: nat, index: nat, later: nat)
    requires AllWhite(t, index, later)
    ensures NoEnd(t, periodEnds, index, later, end)
  {
    forall i: nat | index <= i < later && Boundary(t, i) ensures !RunStart(t, i) {
      assert White(t, i);
    }
  }

  lemma ScalarPasses(t: Text, periodEnds: PeriodRule, end: nat, cursor: nat, index: nat)
    requires Valid(t) && index < |t| && Boundary(t, index) && NoEnd(t, periodEnds, cursor, index, end) && !TerminatorAt(t, index)
    ensures NoEnd(t, periodEnds, cursor, Next(t, index), end)
  {
    NextFacts(t, index);
  }

  lemma AllOneAppend(t: Text, periodEnds: PeriodRule, units: seq<Span>, unit: Span, end: nat)
    requires AllOne(t, periodEnds, units, end) && OneSentence(t, periodEnds, unit, end)
    ensures AllOne(t, periodEnds, units + [unit], end)
  {
    forall k: nat | k < |units| + 1 ensures OneSentence(t, periodEnds, (units + [unit])[k], end) {
      if k < |units| { assert OneSentence(t, periodEnds, units[k], end); }
    }
  }

  /** Where the scan for sentence units stands: closed units, and the start of the open one. */
  datatype Scan = Scan(units: seq<Span>, cursor: nat, index: nat)

  ghost function ScanStep(t: Text, contentEnd: nat, periodEnds: PeriodRule, s: Scan): Scan
    requires s.index < |t|
  {
    var i := s.index;
    if TerminatorAt(t, i) then
      if EndsSentence(t, periodEnds, i, contentEnd) then
        var quotedEnd := SentenceEnd(t, i, contentEnd);
        var separatorEnd := WhiteEnd(t, quotedEnd, contentEnd);
        Scan(s.units + [Span(s.cursor, quotedEnd, quotedEnd, separatorEnd)], separatorEnd, separatorEnd)
      else s.(index := Max(RunEnd(t, i, contentEnd), Next(t, i)))
    else if White(t, i) then
      var end := WhiteEnd(t, i, contentEnd);
      if HasNewline(t, i, end) then Scan(s.units + [Span(s.cursor, i, i, end)], end, end) else s.(index := end)
    else s.(index := Next(t, i))
  }

  ghost function Scanned(t: Text, contentEnd: nat, periodEnds: PeriodRule, s: Scan): Scan
    decreases contentEnd - s.index
  {
    if s.index >= contentEnd || s.index >= |t| then s
    else
      var next := ScanStep(t, contentEnd, periodEnds, s);
      if next.index <= s.index then s else Scanned(t, contentEnd, periodEnds, next)
  }

  ghost function Closed(t: Text, contentEnd: nat, s: Scan): seq<Span> {
    if s.cursor < contentEnd then s.units + [Span(s.cursor, contentEnd, contentEnd, |t|)]
    else if s.units == [] then []
    else s.units[|s.units| - 1 := s.units[|s.units| - 1].(separatorEnd := |t|)]
  }

  /** The sentence units of a text whose content ends at `contentEnd`. */
  ghost function UnitsOf(t: Text, contentEnd: nat, periodEnds: PeriodRule): seq<Span> {
    Closed(t, contentEnd, Scanned(t, contentEnd, periodEnds, Scan([], 0, 0)))
  }

  lemma WhiteScan(t: Text, contentEnd: nat, periodEnds: PeriodRule, s: Scan, end: nat)
    requires s.index < |t| && !TerminatorAt(t, s.index) && White(t, s.index) && end == WhiteEnd(t, s.index, contentEnd)
    ensures ScanStep(t, contentEnd, periodEnds, s)
            == if HasNewline(t, s.index, end) then Scan(s.units + [Span(s.cursor, s.index, s.index, end)], end, end) else s.(index := end)
  {
  }

  /** One terminator: closes a unit when a boundary follows, else moves on. */
  method ScanTerminator(t: Text, contentEnd: nat, periodEnds: PeriodRule, units: seq<Span>, cursor: nat, index: nat)
    returns (units': seq<Span>, cursor': nat, index': nat)
    requires Valid(t) && Scanning(t, contentEnd, units, cursor, index) && index < contentEnd
    requires TerminatorAt(t, index) && Splitting(t, periodEnds, contentEnd, units, cursor, index)
    ensures Scanning(t, contentEnd, units', cursor', index') && index < index'
    ensures Splitting(t, periodEnds, contentEnd, units', cursor', index')
    ensures Scan(units', cursor', index') == ScanStep(t, contentEnd, periodEnds, Scan(units, cursor, index))
  {
    StepWithin(t, index, contentEnd);
    if units == [] && index == 0 { NotLeading(t, 0); }
    var punctuationEnd := ConsumeTerminators(t, index, contentEnd);
    var quotedEnd := ConsumeClosingMarks(t, punctuationEnd, contentEnd);
    var follows := quotedEnd == contentEnd || White(t, quotedEnd);
    if follows && (Scalar(t, index) != 0x2E || periodEnds(t, index, quotedEnd)) {
      var separatorEnd := ConsumeWhitespace(t, quotedEnd, contentEnd);
      var unit := Span(cursor, quotedEnd, quotedEnd, separatorEnd);
      UnitsAppend(t, units, unit);
      TerminatorCloses(t, periodEnds, contentEnd, cursor, index, unit);
      AllOneAppend(t, periodEnds, units, unit, contentEnd);
      return units + [unit], separatorEnd, separatorEnd;
    }
    TerminatorPasses(t, periodEnds, contentEnd, index, punctuationEnd);
    NoEndExtends(t, periodEnds, cursor, index, punctuationEnd, contentEnd);
    return units, cursor, Max(punctuationEnd, Next(t, index));
  }

  /** One whitespace run: a line break in it closes a unit. */
  method ScanWhitespace(t: Text, contentEnd: nat, ghost periodEnds: PeriodRule, units: seq<Span>, cursor: nat, index: nat)
    returns (units': seq<Span>, cursor': nat, index': nat)
    requires Valid(t) && Trimmed(t, contentEnd) && Scanning(t, contentEnd, units, cursor, index)
    requires index < contentEnd && White(t, index) && Splitting(t, periodEnds, contentEnd, units, cursor, index)
    requires !TerminatorAt(t, index)
    ensures Scanning(t, contentEnd, units', cursor', index') && index < index'
    ensures Splitting(t, periodEnds, contentEnd, units', cursor', index')
    ensures Scan(units', cursor', index') == ScanStep(t, contentEnd, periodEnds, Scan(units, cursor, index))
  {
    var end := ConsumeWhitespace(t, index, contentEnd);
    RunEndsInside(t, contentEnd, index, end);
    WhiteScan(t, contentEnd, periodEnds, Scan(units, cursor, index), end);
    if exists k :: index <= k < end && IsNewline(t[k]) {
      var unit := Span(cursor, index, index, end);
      if units == [] && index == 0 {
        LeadingRun(t, end);
      }
      UnitsAppend(t, units, unit);
      AllOneAppend(t, periodEnds, units, unit, contentEnd);
      return units + [unit], end, end;
    }
    WhitespacePasses(t, periodEnds, contentEnd, index, end);
    NoEndExtends(t, periodEnds, cursor, index, end, contentEnd);
    if units == [] && index == 0 { NotLeading(t, end); }
    return units, cursor, end;
  }

  lemma LeadingRun(t: Text, end: nat)
    requires AllWhite(t, 0, end) && end <= |t| && exists k :: 0 <= k < end && IsNewline(t[k])
    ensures LeadingNewline(t)
  {
    var k :| 0 <= k < end && IsNewline(t[k]);
    assert AllWhite(t, 0, k);
  }

  /** A whitespace run inside trimmed text stops before the text does. */
  lemma RunEndsInside(t: Text, contentEnd: nat, from: nat, end: nat)
    requires Valid(t) && Trimmed(t, contentEnd) && from < end <= contentEnd && Boundary(t, from) && Boundary(t, end)
    requires AllWhite(t, from, end) && (end == contentEnd || !White(t, end))
    ensures end < contentEnd && !White(t, end)
  {
    var last: nat :| last < contentEnd && Boundary(t, last) && Next(t, last) == contentEnd && !White(t, last);
    if last < from { NextFacts(t, last); }
  }

  lemma SingleUnitEnd(t: Text, contentEnd: nat, s: Span)
    requires Valid(t) && Trimmed(t, contentEnd) && SpanOk(t, s) && s.contentEnd <= contentEnd && s.separatorEnd >= contentEnd
    ensures s.contentEnd == contentEnd
  {
    if s.contentEnd < contentEnd {
      var last: nat :| last < contentEnd && Boundary(t, last) && Next(t, last) == contentEnd && !White(t, last);
      if last < s.contentEnd { NextFacts(t, last); }
      assert false;
    }
  }

  /** `sentence_units`. */
  method SentenceUnits(t: Text, contentEnd: nat, periodEnds: PeriodRule) returns (units: seq<Span>)
    requires Valid(t) && Trimmed(t, contentEnd)
    ensures AllOne(t, periodEnds, units, contentEnd)
    ensures contentEnd == 0 ==> units == []
    ensures contentEnd > 0 ==> units != [] && UnitsTo(t, units, |t|)
    ensures |units| == 1 ==> units[0].contentEnd == contentEnd
    ensures units == UnitsOf(t, contentEnd, periodEnds)
  {
    units := [];
    var cursor, index := 0, 0;
    while index < contentEnd
      invariant Scanning(t, contentEnd, units, cursor, index) && Splitting(t, periodEnds, contentEnd, units, cursor, index)
      invariant Scanned(t, contentEnd, periodEnds, Scan(units, cursor, index)) == Scanned(t, contentEnd, periodEnds, Scan([], 0, 0))
      decreases contentEnd - index
    {
      StepWithin(t, index, contentEnd);
      var character := Scalar(t, index);
      if IsTerminator(character) {
        units, cursor, index := ScanTerminator(t, contentEnd, periodEnds, units, cursor, index);
      } else if IsWhitespace(character) {
        units, cursor, index := ScanWhitespace(t, contentEnd, periodEnds, units, cursor, index);
      } else {
        if units == [] && index == 0 { NotLeading(t, 0); }
        NewlineIsWhite(t, index);
        ScalarPasses(t, periodEnds, contentEnd, cursor, index);
        index := Next(t, index);
      }
    }
    units := CloseUnits(t, contentEnd, periodEnds, units, cursor);
  }

  method CloseUnits(t: Text, contentEnd: nat, ghost periodEnds: PeriodRule, open: seq<Span>, cursor: nat) returns (units: seq<Span>)
    requires Valid(t) && Trimmed(t, contentEnd) && Scanning(t, contentEnd, open, cursor, contentEnd)
    requires Splitting(t, periodEnds, contentEnd, open, cursor, contentEnd)
    ensures AllOne(t, periodEnds, units, contentEnd)
    ensures contentEnd == 0 ==> units == []
    ensures contentEnd > 0 ==> units != [] && UnitsTo(t, units, |t|)
    ensures |units| == 1 ==> units[0].contentEnd == contentEnd
    ensures units == Closed(t, contentEnd, Scan(open, cursor, contentEnd))
  {
    units := open;
    if cursor < contentEnd {
      var unit := Span(cursor, contentEnd, contentEnd, |t|);
      UnitsAppend(t, units, unit);
      AllOneAppend(t, periodEnds, units, unit, contentEnd);
      units := units + [unit];
    } else if units != [] {
      units := units[|units| - 1 := units[|units| - 1].(separatorEnd := |t|)];
      ExtendedLast(t, contentEnd, open, units);
      AllOneExtended(t, periodEnds, open, units, contentEnd);
    }
  }

  lemma UnitsPrefix(t: Text, units: seq<Span>, cursor: nat)
    requires units != [] && UnitsTo(t, units, cursor)
    ensures UnitsTo(t, units[..|units| - 1], units[|units| - 1].contentStart)
  {
  }

  lemma AllOneExtended(t: Text, periodEnds: PeriodRule, open: seq<Span>, units: seq<Span>, end: nat)
    requires open != [] && AllOne(t, periodEnds, open, end) && open[|open| - 1].separatorEnd <= |t|
    requires units == open[|open| - 1 := open[|open| - 1].(separatorEnd := |t|)]
    ensures AllOne(t, periodEnds, units, end)
  {
    forall k: nat | k < |units| ensures OneSentence(t, periodEnds, units[k], end) {
      assert OneSentence(t, periodEnds, open[k], end);
    }
  }

  /** The last separator reaches to the end of the text. */
  lemma ExtendedLast(t: Text, contentEnd: nat, open: seq<Span>, units: seq<Span>)
    requires Valid(t) && Trimmed(t, contentEnd) && open != [] && UnitsTo(t, open, contentEnd)
    requires units == open[|open| - 1 := open[|open| - 1].(separatorEnd := |t|)]
    ensures UnitsTo(t, units, |t|)
    ensures |units| == 1 ==> units[0].contentEnd == contentEnd
  {
    var front, last := open[..|open| - 1], open[|open| - 1];
    assert SpanOk(t, last);
    UnitsPrefix(t, open, contentEnd);
    WhiteExtends(t, last.separatorStart, last.separatorEnd, |t|);
    UnitsAppend(t, front, last.(separatorEnd := |t|));
    assert units == front + [last.(separatorEnd := |t|)];
    if |units| == 1 { SingleUnitEnd(t, contentEnd, units[0]); }
  }

  // ---------------------------------------------------------------------------------- the two searches

  /** A range of known size within the limit. */
  ghost predicate Fits(tokenize: Tokenizer, t: Text, start: nat, end: nat, maxPieces: nat) {
    start <= end <= |t| && tokenize(t[start..end]).Ok? && tokenize(t[start..end]).value <= maxPieces
  }

  /** Longer prefixes never fit where shorter ones do not. */
  ghost predicate Monotone(tokenize: Tokenizer, t: Text, start: nat, maxPieces: nat) {
    forall a: nat, b: nat :: start <= a <= b <= |t| && Boundary(t, a) && Boundary(t, b) && Fits(tokenize, t, start, b, maxPieces)
      ==> Fits(tokenize, t, start, a, maxPieces)
  }

  predicate IsCandidate(p: BreakPoint, priority: nat, start: nat, end: nat) {
    p.priority == priority && p.contentEnd > start && p.nextStart > start && p.nextStart < end
  }

  function Candidates(points: seq<BreakPoint>, priority: nat, start: nat, end: nat): (candidates: seq<BreakPoint>)
    ensures forall p :: p in candidates <==> p in points && IsCandidate(p, priority, start, end)
  {
    if points == [] then []
    else
      var rest := Candidates(points[..|points| - 1], priority, start, end);
      var last := points[|points| - 1];
      if IsCandidate(last, priority, start, end) then rest + [last] else rest
  }

  ghost predicate Increasing(points: seq<BreakPoint>) {
    forall i, j :: 0 <= i < j < |points| ==> points[i].contentEnd < points[j].contentEnd
  }

  lemma IncreasingAppend(points: seq<BreakPoint>, last: BreakPoint)
    requires Increasing(points) && forall i :: 0 <= i < |points| ==> points[i].contentEnd < last.contentEnd
    ensures Increasing(points + [last])
  {
  }

  lemma {:induction false} CandidatesIncrease(points: seq<BreakPoint>, priority: nat, start: nat, end: nat)
    requires Ordered(points)
    ensures Increasing(Candidates(points, priority, start, end))
  {
    if points != [] {
      var front, last := points[..|points| - 1], points[|points| - 1];
      CandidatesIncrease(front, priority, start, end);
      var rest := Candidates(front, priority, start, end);
      if IsCandidate(last, priority, start, end) {
        forall i | 0 <= i < |rest| ensures rest[i].contentEnd < last.contentEnd {
          assert rest[i] in front;
          var k :| 0 <= k < |front| && front[k] == rest[i];
          assert points[k] == rest[i] && points[k].priority == points[|points| - 1].priority;
        }
        IncreasingAppend(rest, last);
      }
    }
  }

  /** No candidate behind `found` fits (none at all, if nothing was found). */
  ghost predicate Rightmost(tokenize: Tokenizer, t: Text, points: seq<BreakPoint>, priority: nat, start: nat, end: nat, maxPieces: nat,
                            found: Option<(BreakPoint, nat)>) {
    forall p :: p in points && IsCandidate(p, priority, start, end) && (found.Some? ==> p.contentEnd > found.value.0.contentEnd)
      ==> !Fits(tokenize, t, start, p.contentEnd, maxPieces)
  }

  /** Between two comparisons: everything before `low` is settled by `best`, and `high` does not fit. */
  ghost predicate Bisecting(tokenize: Tokenizer, t: Text, start: nat, maxPieces: nat, candidates: seq<BreakPoint>,
                            low: nat, high: nat, best: Option<(BreakPoint, nat)>)
  {
    && low <= high <= |candidates|
    && (if low == 0 then best.None?
        else best.Some? && best.value.0 == candidates[low - 1] && best.value.1 <= maxPieces
             && Counted(tokenize, t, start, candidates[low - 1].contentEnd, best.value.1))
    && (high < |candidates| ==> !Fits(tokenize, t, start, candidates[high].contentEnd, maxPieces))
  }

  lemma Bisect(tokenize: Tokenizer, t: Text, start: nat, maxPieces: nat, candidates: seq<BreakPoint>,
               low: nat, high: nat, best: Option<(BreakPoint, nat)>, middle: nat, pieces: nat)
    requires Bisecting(tokenize, t, start, maxPieces, candidates, low, high, best) && low <= middle < high
    requires Counted(tokenize, t, start, candidates[middle].contentEnd, pieces)
    ensures pieces <= maxPieces ==>
              Bisecting(tokenize, t, start, maxPieces, candidates, middle + 1, high, Some((candidates[middle], pieces)))
    ensures pieces > maxPieces ==> Bisecting(tokenize, t, start, maxPieces, candidates, low, middle, best)
  {
  }

  lemma CandidateInside(points: seq<BreakPoint>, priority: nat, start: nat, end: nat, k: nat)
    requires k < |Candidates(points, priority, start, end)|
    requires forall i :: 0 <= i < |points| ==> points[i].contentEnd <= points[i].nextStart
    ensures var c := Candidates(points, priority, start, end)[k];
            c in points && IsCandidate(c, priority, start, end) && start < c.contentEnd <= end
  {
    assert Candidates(points, priority, start, end)[k] in points;
  }

  /** The bisection: a fitting candidate moves it right, any other left. */
  ghost function Bisected(t: Text, tokenize: Tokenizer, maxPieces: nat, cs: seq<BreakPoint>, start: nat, low: nat, high: nat,
                          best: Option<(BreakPoint, nat)>): Traced<Option<(BreakPoint, nat)>>
    requires high <= |cs|
    decreases high - low
  {
    if low >= high then Traced(Ok(best), [])
    else
      var middle := low + (high - low) / 2;
      var pieces := PiecesAt(t, tokenize, start, cs[middle].contentEnd);
      Behind([(start, cs[middle].contentEnd)],
             if pieces <= maxPieces then Bisected(t, tokenize, maxPieces, cs, start, middle + 1, high, Some((cs[middle], pieces)))
             else Bisected(t, tokenize, maxPieces, cs, start, low, middle, best))
  }

  ghost function FoundBreak(t: Text, tokenize: Tokenizer, maxPieces: nat, points: seq<BreakPoint>, priority: nat, start: nat, end: nat)
    : Traced<Option<(BreakPoint, nat)>>
  {
    var cs := Candidates(points, priority, start, end);
    Bisected(t, tokenize, maxPieces, cs, start, 0, |cs|, None)
  }

  /** Between two comparisons: as far as the bisection is settled, and what it still leads to. */
  ghost predicate Halving(t: Text, tokenize: Tokenizer, start: nat, maxPieces: nat, cs: seq<BreakPoint>, low: nat, high: nat,
                          best: Option<(BreakPoint, nat)>, asked: seq<Ask>, goal: Traced<Option<(BreakPoint, nat)>>)
  {
    && Bisecting(tokenize, t, start, maxPieces, cs, low, high, best)
    && goal == Behind(asked, Bisected(t, tokenize, maxPieces, cs, start, low, high, best))
    && forall k :: 0 <= k < |cs| ==> start <= cs[k].contentEnd <= |t|
  }

  /** What the bisection does after its next comparison. */
  ghost function AfterComparison(t: Text, tokenize: Tokenizer, maxPieces: nat, cs: seq<BreakPoint>, start: nat, low: nat, high: nat,
                                 best: Option<(BreakPoint, nat)>): Traced<Option<(BreakPoint, nat)>>
    requires low < high <= |cs|
  {
    var middle := low + (high - low) / 2;
    var pieces := PiecesAt(t, tokenize, start, cs[middle].contentEnd);
    if pieces <= maxPieces then Bisected(t, tokenize, maxPieces, cs, start, middle + 1, high, Some((cs[middle], pieces)))
    else Bisected(t, tokenize, maxPieces, cs, start, low, middle, best)
  }

  lemma Halves(t: Text, tokenize: Tokenizer, start: nat, maxPieces: nat, cs: seq<BreakPoint>, low: nat, high: nat,
               best: Option<(BreakPoint, nat)>, asked: seq<Ask>, goal: Traced<Option<(BreakPoint, nat)>>)
    requires Halving(t, tokenize, start, maxPieces, cs, low, high, best, asked, goal) && low < high
    ensures high <= |cs| && start <= cs[low + (high - low) / 2].contentEnd <= |t|
    ensures goal == Behind(asked, Behind(CountOf(t, tokenize, start, cs[low + (high - low) / 2].contentEnd).asks,
                                         AfterComparison(t, tokenize, maxPieces, cs, start, low, high, best)))
  {
  }

  lemma Halved(t: Text, tokenize: Tokenizer, start: nat, maxPieces: nat, cs: seq<BreakPoint>, low: nat, high: nat,
               best: Option<(BreakPoint, nat)>, asked: seq<Ask>, goal: Traced<Option<(BreakPoint, nat)>>, pieces: nat, after: seq<Ask>)
    requires Halving(t, tokenize, start, maxPieces, cs, low, high, best, asked, goal) && low < high
    requires Counted(tokenize, t, start, cs[low + (high - low) / 2].contentEnd, pieces)
    requires goal == Behind(after, AfterComparison(t, tokenize, maxPieces, cs, start, low, high, best))
    ensures var middle := low + (high - low) / 2;
            if pieces <= maxPieces
            then Halving(t, tokenize, start, maxPieces, cs, middle + 1, high, Some((cs[middle], pieces)), after, goal)
            else Halving(t, tokenize, start, maxPieces, cs, low, middle, best, after, goal)
  {
    Bisect(tokenize, t, start, maxPieces, cs, low, high, best, low + (high - low) / 2, pieces);
  }

  /** One comparison of the bisection. */
  method BisectOnce(candidates: seq<BreakPoint>, start: nat, maxPieces: nat, counter: PieceCounter, low: nat, high: nat,
                    best: Option<(BreakPoint, nat)>, ghost goal: Traced<Option<(BreakPoint, nat)>>)
    returns (r: Result<(nat, nat, Option<(BreakPoint, nat)>), Error>)
    requires counter.Valid() && low < high
    requires Halving(counter.text, counter.tokenize, start, maxPieces, candidates, low, high, best, counter.asked, goal)
    modifies counter
    ensures r.Ok? ==> counter.Valid() && r.value.0 <= r.value.1 && r.value.1 - r.value.0 < high - low
    ensures r.Ok? ==> Halving(counter.text, counter.tokenize, start, maxPieces, candidates, r.value.0, r.value.1, r.value.2, counter.asked, goal)
    ensures r.Err? ==> Explained(counter.text, counter.tokenize, maxPieces, r.error) && Outcome(counter.afford, goal, Err(r.error), counter.asked)
  {
    var middle := low + (high - low) / 2;
    ghost var t, tokenize, asked := counter.text, counter.tokenize, counter.asked;
    Halves(t, tokenize, start, maxPieces, candidates, low, high, best, asked, goal);
    ghost var part := CountOf(t, tokenize, start, candidates[middle].contentEnd);
    ghost var rest := AfterComparison(t, tokenize, maxPieces, candidates, start, low, high, best);
    var pieces := counter.Count(start, candidates[middle].contentEnd);
    if pieces.Err? {
      PartFails(counter, goal, asked, part, rest, pieces, counter.asked);
      return Err(pieces.error);
    }
    PartDone(counter.afford, goal, asked, part, rest, pieces, counter.asked);
    Halved(t, tokenize, start, maxPieces, candidates, low, high, best, asked, goal, pieces.value, counter.asked);
    if pieces.value <= maxPieces { return Ok((middle + 1, high, Some((candidates[middle], pieces.value)))); }
    return Ok((low, middle, best));
  }

  /** The bisection ends where the first candidate that does not fit was seen. */
  method Bisection(candidates: seq<BreakPoint>, start: nat, maxPieces: nat, counter: PieceCounter,
                   ghost goal: Traced<Option<(BreakPoint, nat)>>)
    returns (r: Result<Option<(BreakPoint, nat)>, Error>, ghost settled: nat)
    requires counter.Valid()
    requires Halving(counter.text, counter.tokenize, start, maxPieces, candidates, 0, |candidates|, None, counter.asked, goal)
    modifies counter
    ensures r.Err? ==> Explained(counter.text, counter.tokenize, maxPieces, r.error) && Outcome(counter.afford, goal, r, counter.asked)
    ensures r.Ok? ==> counter.Valid()
    ensures r.Ok? ==> Halving(counter.text, counter.tokenize, start, maxPieces, candidates, settled, settled, r.value, counter.asked, goal)
  {
    var low: nat, high: nat := 0, |candidates|;
    var best: Option<(BreakPoint, nat)> := None;
    while low < high
      invariant counter.Valid() && low <= high
      invariant Halving(counter.text, counter.tokenize, start, maxPieces, candidates, low, high, best, counter.asked, goal)
      decreases high - low
    {
      var next := BisectOnce(candidates, start, maxPieces, counter, low, high, best, goal);
      if next.Err? { return Err(next.error), low; }
      low, high, best := next.value.0, next.value.1, next.value.2;
    }
    return Ok(best), low;
  }

  /** The candidates of a priority, ready to be searched. */
  lemma SearchBegins(t: Text, tokenize: Tokenizer, points: seq<BreakPoint>, priority: nat, start: nat, end: nat, maxPieces: nat, asked: seq<Ask>)
    requires start <= end <= |t| && forall i :: 0 <= i < |points| ==> points[i].contentEnd <= points[i].nextStart
    ensures var cs := Candidates(points, priority, start, end);
            Halving(t, tokenize, start, maxPieces, cs, 0, |cs|, None, asked,
                    Behind(asked, FoundBreak(t, tokenize, maxPieces, points, priority, start, end)))
  {
    var cs := Candidates(points, priority, start, end);
    forall k: nat | k < |cs| ensures start <= cs[k].contentEnd <= |t| { CandidateInside(points, priority, start, end, k); }
  }

  /** What the search has found when it ends. */
  lemma SearchEnds(t: Text, tokenize: Tokenizer, points: seq<BreakPoint>, priority: nat, start: nat, end: nat, maxPieces: nat,
                   low: nat, best: Option<(BreakPoint, nat)>, asked: seq<Ask>, goal: Traced<Option<(BreakPoint, nat)>>)
    requires Ordered(points) && start <= end <= |t|
    requires forall i :: 0 <= i < |points| ==> points[i].contentEnd <= points[i].nextStart && Boundary(t, points[i].contentEnd)
    requires Halving(t, tokenize, start, maxPieces, Candidates(points, priority, start, end), low, low, best, asked, goal)
    ensures goal == Traced(Ok(best), asked)
    ensures best.Some? ==>
              && best.value.0 in points && IsCandidate(best.value.0, priority, start, end)
              && Counted(tokenize, t, start, best.value.0.contentEnd, best.value.1) && best.value.1 <= maxPieces
    ensures Monotone(tokenize, t, start, maxPieces) ==> Rightmost(tokenize, t, points, priority, start, end, maxPieces, best)
  {
    assert asked + [] == asked;
    if low > 0 { CandidateInside(points, priority, start, end, low - 1); }
    if Monotone(tokenize, t, start, maxPieces) {
      NothingBehind(tokenize, t, points, priority, start, end, maxPieces, low, best);
    }
  }

  /** `rightmost_fitting_break`: always a fitting candidate; the rightmost one when counts are monotone. */
  method RightmostFittingBreak(points: seq<BreakPoint>, priority: nat, start: nat, end: nat, maxPieces: nat, counter: PieceCounter)
    returns (r: Result<Option<(BreakPoint, nat)>, Error>)
    requires counter.Valid() && Ordered(points) && start <= end <= |counter.text|
    requires forall i :: 0 <= i < |points| ==> points[i].contentEnd <= points[i].nextStart && Boundary(counter.text, points[i].contentEnd)
    modifies counter
    ensures r.Err? ==> Explained(counter.text, counter.tokenize, maxPieces, r.error)
    ensures r.Ok? ==> counter.Valid()
    ensures r.Ok? && r.value.Some? ==>
              && r.value.value.0 in points && IsCandidate(r.value.value.0, priority, start, end)
              && Counted(counter.tokenize, counter.text, start, r.value.value.0.contentEnd, r.value.value.1) && r.value.value.1 <= maxPieces
    ensures r.Ok? && Monotone(counter.tokenize, counter.text, start, maxPieces) ==>
              Rightmost(counter.tokenize, counter.text, points, priority, start, end, maxPieces, r.value)
    ensures Outcome(counter.afford, Behind(old(counter.asked), FoundBreak(counter.text, counter.tokenize, maxPieces, points, priority, start, end)),
                    r, counter.asked)
  {
    var candidates := Candidates(points, priority, start, end);
    ghost var t, tokenize := counter.text, counter.tokenize;
    ghost var goal := Behind(counter.asked, FoundBreak(t, tokenize, maxPieces, points, priority, start, end));
    SearchBegins(t, tokenize, points, priority, start, end, maxPieces, counter.asked);
    ghost var low: nat;
    r, low := Bisection(candidates, start, maxPieces, counter, goal);
    if r.Ok? { SearchEnds(t, tokenize, points, priority, start, end, maxPieces, low, r.value, counter.asked, goal); }
  }

  /** Behind a candidate that does not fit, none does. */
  lemma LaterDoesNotFit(tokenize: Tokenizer, t: Text, start: nat, maxPieces: nat, cs: seq<BreakPoint>, high: nat, k: nat)
    requires Increasing(cs) && high <= k < |cs| && Monotone(tokenize, t, start, maxPieces)
    requires start <= cs[high].contentEnd && Boundary(t, cs[high].contentEnd) && Boundary(t, cs[k].contentEnd)
    requires !Fits(tokenize, t, start, cs[high].contentEnd, maxPieces)
    ensures !Fits(tokenize, t, start, cs[k].contentEnd, maxPieces)
  {
    if high < k { assert cs[high].contentEnd < cs[k].contentEnd; }
  }

  lemma NothingBehind(tokenize: Tokenizer, t: Text, points: seq<BreakPoint>, priority: nat, start: nat, end: nat, maxPieces: nat,
                      high: nat, best: Option<(BreakPoint, nat)>)
    requires Ordered(points) && Monotone(tokenize, t, start, maxPieces)
    requires forall p :: p in points ==> Boundary(t, p.contentEnd)
    requires var cs := Candidates(points, priority, start, end);
             && high <= |cs| && (high < |cs| ==> !Fits(tokenize, t, start, cs[high].contentEnd, maxPieces))
             && (if high == 0 then best.None? else best.Some? && best.value.0 == cs[high - 1])
    ensures Rightmost(tokenize, t, points, priority, start, end, maxPieces, best)
  {
    var cs := Candidates(points, priority, start, end);
    CandidatesIncrease(points, priority, start, end);
    forall p | p in points && IsCandidate(p, priority, start, end) && (best.Some? ==> p.contentEnd > best.value.0.contentEnd)
      ensures !Fits(tokenize, t, start, p.contentEnd, maxPieces)
    {
      assert p in cs;
      var k :| 0 <= k < |cs| && cs[k] == p;
      NotBefore(cs, k, high);
      assert cs[high] in cs && cs[high] in points;
      LaterDoesNotFit(tokenize, t, start, maxPieces, cs, high, k);
    }
  }

  lemma NotBefore(cs: seq<BreakPoint>, k: nat, high: nat)
    requires Increasing(cs) && k < |cs| && high <= |cs| && (high > 0 ==> cs[k].contentEnd > cs[high - 1].contentEnd)
    ensures high <= k
  {
  }

  /** `div_ceil(2)`. */
  function HalfUp(n: nat): nat {
    (n + 1) / 2
  }

  /** The boundary that the prefix search settles on; `low` is the best fit so far. */
  function PrefixSearch(t: Text, fits: nat -> bool, start: nat, low: nat, high: nat): (best: nat)
    requires start < low
    ensures low <= best && (low <= high ==> best <= high)
    decreases high - low
  {
    if low >= high then low
    else
      var middle := Floor(t, low + HalfUp(high - low), start);
      if middle <= low then low
      else if fits(middle) then PrefixSearch(t, fits, start, middle, high)
      else PrefixSearch(t, fits, start, low, Below(t, middle, start))
  }

  /** What the search finds fits, and lies on a boundary. */
  lemma {:induction false} PrefixSearchFits(t: Text, fits: nat -> bool, start: nat, low: nat, high: nat)
    requires start < low && fits(low) && Boundary(t, low)
    ensures fits(PrefixSearch(t, fits, start, low, high)) && Boundary(t, PrefixSearch(t, fits, start, low, high))
    decreases high - low
  {
    if low < high {
      var middle := Floor(t, low + HalfUp(high - low), start);
      if middle > low {
        if fits(middle) {
          PrefixSearchFits(t, fits, start, middle, high);
        } else {
          PrefixSearchFits(t, fits, start, low, Below(t, middle, start));
        }
      }
    }
  }

  /** Fitting is downward closed on the boundaries behind `start`. */
  ghost predicate DownwardClosed(t: Text, fits: nat -> bool, start: nat) {
    forall a: nat, b: nat :: start < a <= b <= |t| && Boundary(t, a) && Boundary(t, b) && fits(b) ==> fits(a)
  }

  /** Between `start` and `end` every scalar is a single byte. */
  ghost predicate SingleBytes(t: Text, start: nat, end: nat) {
    forall i: nat :: start <= i <= end ==> Boundary(t, i)
  }

  /** Where the search stops early, at most six bytes are left, and a scalar of several bytes is in the way. */
  lemma StopsClose(t: Text, start: nat, low: nat, high: nat)
    requires Valid(t) && start < low < high <= |t| && Boundary(t, low)
    requires Floor(t, low + HalfUp(high - low), start) <= low
    ensures high <= low + 6 && !Boundary(t, low + 1)
  {
    NextFacts(t, low);
    var raw := low + HalfUp(high - low);
    assert raw < Next(t, low);
  }

  /** The search misses the largest fitting boundary by at most six bytes. */
  lemma {:induction false} PrefixSearchBound(t: Text, fits: nat -> bool, start: nat, low: nat, high: nat, e: nat)
    requires Valid(t) && start < low <= high <= |t| && Boundary(t, low) && DownwardClosed(t, fits, start)
    requires low <= e <= high && fits(e) && Boundary(t, e)
    ensures e <= PrefixSearch(t, fits, start, low, high) + 6
    decreases high - low
  {
    if low < high {
      var middle := Floor(t, low + HalfUp(high - low), start);
      if middle <= low {
        StopsClose(t, start, low, high);
      } else if fits(middle) {
        if e >= middle { PrefixSearchBound(t, fits, start, middle, high, e); }
      } else {
        BelowKeeps(t, low, middle, start);
        BelowKeeps(t, e, middle, start);
        PrefixSearchBound(t, fits, start, low, Below(t, middle, start), e);
      }
    }
  }

  lemma BelowKeeps(t: Text, e: nat, middle: nat, start: nat)
    requires start < e < middle && Boundary(t, e)
    ensures e <= Below(t, middle, start) < middle
  {
  }

  ghost function FitsFrom(tokenize: Tokenizer, t: Text, start: nat, maxPieces: nat): nat -> bool {
    (e: nat) => Fits(tokenize, t, start, e, maxPieces)
  }

  // ---------------------------------------------------------------------------------- when the prefix search is exact

  /** One comparison of the search, taken on its defining equation. */
  lemma SearchStep(t: Text, fits: nat -> bool, start: nat, low: nat, high: nat, middle: nat)
    requires start < low < high && Boundary(t, low) && middle == Floor(t, low + HalfUp(high - low), start)
    ensures middle <= low ==> PrefixSearch(t, fits, start, low, high) == low
    ensures middle > low ==> middle <= high && Boundary(t, middle) && low <= Below(t, middle, start) < middle
    ensures middle > low && fits(middle) ==> PrefixSearch(t, fits, start, low, high) == PrefixSearch(t, fits, start, middle, high)
    ensures middle > low && !fits(middle) ==>
              PrefixSearch(t, fits, start, low, high) == PrefixSearch(t, fits, start, low, Below(t, middle, start))
  {
    if middle > low { BelowKeeps(t, low, middle, start); }
  }

  /** Whatever fits, no comparison of the search falls back to the boundary that it starts from. */
  predicate NeverStopsShort(t: Text, start: nat, low: nat, high: nat)
    requires start < low
    decreases high - low
  {
    low >= high ||
    var middle := Floor(t, low + HalfUp(high - low), start);
    middle > low && NeverStopsShort(t, start, middle, high) && NeverStopsShort(t, start, low, Below(t, middle, start))
  }

  /** Then the search misses nothing. */
  lemma {:induction false} NothingMissed(t: Text, fits: nat -> bool, start: nat, low: nat, high: nat, e: nat)
    requires start < low <= high <= |t| && Boundary(t, low) && DownwardClosed(t, fits, start) && NeverStopsShort(t, start, low, high)
    requires low <= e <= high && fits(e) && Boundary(t, e)
    ensures e <= PrefixSearch(t, fits, start, low, high)
    decreases high - low
  {
    if low < high {
      var middle := Floor(t, low + HalfUp(high - low), start);
      if fits(middle) {
        if e >= middle { NothingMissed(t, fits, start, middle, high, e); }
      } else {
        BelowKeeps(t, low, middle, start);
        BelowKeeps(t, e, middle, start);
        NothingMissed(t, fits, start, low, Below(t, middle, start), e);
      }
    }
  }

  ghost function UpTo(e: nat): nat -> bool {
    (x: nat) => x <= e
  }

  /** One comparison, for all outcomes. */
  lemma NeverStep(t: Text, start: nat, low: nat, high: nat, middle: nat)
    requires start < low < high && middle == Floor(t, low + HalfUp(high - low), start)
    ensures NeverStopsShort(t, start, low, high)
            <==> middle > low && NeverStopsShort(t, start, middle, high) && NeverStopsShort(t, start, low, Below(t, middle, start))
  {
  }

  /** Otherwise a path of comparisons ends early, and leaves its upper boundary out although it fits. */
  lemma {:induction false} SomethingMissed(t: Text, start: nat, low: nat, high: nat) returns (e: nat)
    requires start < low <= high <= |t| && Boundary(t, low) && Boundary(t, high) && !NeverStopsShort(t, start, low, high)
    ensures low < e <= high && Boundary(t, e) && PrefixSearch(t, UpTo(e), start, low, high) < e
    decreases high - low
  {
    var middle := Floor(t, low + HalfUp(high - low), start);
    NeverStep(t, start, low, high, middle);
    if middle <= low {
      e := high;
    } else if !NeverStopsShort(t, start, middle, high) {
      MiddleWithin(t, start, low, high, middle);
      e := SomethingMissed(t, start, middle, high);
    } else {
      MiddleWithin(t, start, low, high, middle);
      e := SomethingMissed(t, start, low, Below(t, middle, start));
    }
    SearchStep(t, UpTo(e), start, low, high, middle);
  }

  lemma MiddleWithin(t: Text, start: nat, low: nat, high: nat, middle: nat)
    requires start < low < high && Boundary(t, low) && middle == Floor(t, low + HalfUp(high - low), start) && middle > low
    ensures middle <= high && Boundary(t, middle) && low <= Below(t, middle, start) < middle && Boundary(t, Below(t, middle, start))
  {
    BelowKeeps(t, low, middle, start);
  }

  /** The search looks at `fits` only behind `start`. */
  lemma {:induction false} SearchLooksBehind(t: Text, fits: nat -> bool, other: nat -> bool, start: nat, low: nat, high: nat)
    requires start < low <= high && Boundary(t, low) && forall x: nat :: start < x <= high ==> fits(x) == other(x)
    ensures PrefixSearch(t, fits, start, low, high) == PrefixSearch(t, other, start, low, high)
    decreases high - low
  {
    if low < high {
      var middle := Floor(t, low + HalfUp(high - low), start);
      if middle > low {
        if fits(middle) {
          SearchLooksBehind(t, fits, other, start, middle, high);
        } else {
          BelowKeeps(t, low, middle, start);
          SearchLooksBehind(t, fits, other, start, low, Below(t, middle, start));
        }
      }
    }
  }

  /** A tokenizer with one piece for each byte. */
  function ByteCount(): Tokenizer {
    (text: Text) => Ok(|text|)
  }

  lemma BytesFit(t: Text, start: nat, e: nat, maxPieces: nat)
    requires start <= e <= |t| && maxPieces == e - start
    ensures Monotone(ByteCount(), t, start, maxPieces)
    ensures forall x: nat {:trigger Fits(ByteCount(), t, start, x, maxPieces)} ::
              start <= x <= |t| ==> (Fits(ByteCount(), t, start, x, maxPieces) <==> x <= e)
  {
  }

  /** The search for the largest fitting prefix of scalars, as it is called. */
  ghost function LongestFound(t: Text, tokenize: Tokenizer, maxPieces: nat, start: nat, end: nat): nat
    requires start < |t|
  {
    PrefixSearch(t, FitsFrom(tokenize, t, start, maxPieces), start, Next(t, start), end)
  }

  /** No fitting prefix of scalars is longer than the one that is found. */
  ghost predicate FindsLongest(t: Text, tokenize: Tokenizer, maxPieces: nat, start: nat, end: nat)
    requires start < |t|
  {
    forall e: nat {:trigger Fits(tokenize, t, start, e, maxPieces)} ::
      Next(t, start) <= e <= end && Boundary(t, e) && Fits(tokenize, t, start, e, maxPieces) ==> e <= LongestFound(t, tokenize, maxPieces, start, end)
  }

  lemma FindsIfNeverShort(t: Text, tokenize: Tokenizer, maxPieces: nat, start: nat, end: nat)
    requires Valid(t) && start < end <= |t| && Boundary(t, start) && Boundary(t, end) && NeverStopsShort(t, start, Next(t, start), end)
    requires Monotone(tokenize, t, start, maxPieces)
    ensures FindsLongest(t, tokenize, maxPieces, start, end)
  {
    StepWithin(t, start, end);
    forall e: nat | Next(t, start) <= e <= end && Boundary(t, e) && Fits(tokenize, t, start, e, maxPieces)
      ensures e <= LongestFound(t, tokenize, maxPieces, start, end)
    {
      NothingMissed(t, FitsFrom(tokenize, t, start, maxPieces), start, Next(t, start), end, e);
    }
  }

  lemma NeverMeansFound(t: Text, tokenize: Tokenizer, maxPieces: nat, start: nat, end: nat, e: nat)
    requires Valid(t) && start < end <= |t| && Boundary(t, start) && Boundary(t, end) && Monotone(tokenize, t, start, maxPieces)
    requires Next(t, start) <= e <= end && Boundary(t, e) && Fits(tokenize, t, start, e, maxPieces)
    ensures NeverStopsShort(t, start, Next(t, start), end) ==> e <= LongestFound(t, tokenize, maxPieces, start, end)
  {
    if NeverStopsShort(t, start, Next(t, start), end) { FindsIfNeverShort(t, tokenize, maxPieces, start, end); }
  }

  lemma MissesIfShort(t: Text, start: nat, end: nat) returns (maxPieces: nat)
    requires Valid(t) && start < end <= |t| && Boundary(t, start) && Boundary(t, end) && !NeverStopsShort(t, start, Next(t, start), end)
    ensures Monotone(ByteCount(), t, start, maxPieces) && !FindsLongest(t, ByteCount(), maxPieces, start, end)
  {
    StepWithin(t, start, end);
    var e := SomethingMissed(t, start, Next(t, start), end);
    maxPieces := e - start;
    BytesFit(t, start, e, maxPieces);
    SearchLooksBehind(t, FitsFrom(ByteCount(), t, start, maxPieces), UpTo(e), start, Next(t, start), end);
    assert Fits(ByteCount(), t, start, e, maxPieces);
  }

  /** The search finds the longest fitting prefix for every monotone counter and every limit exactly when the text never stops it short. */
  lemma PrefixIsLargestExactly(t: Text, start: nat, end: nat)
    requires Valid(t) && start < end <= |t| && Boundary(t, start) && Boundary(t, end)
    ensures NeverStopsShort(t, start, Next(t, start), end)
            <==> forall tokenize: Tokenizer, maxPieces: nat :: Monotone(tokenize, t, start, maxPieces) ==>
                   FindsLongest(t, tokenize, maxPieces, start, end)
  {
    if NeverStopsShort(t, start, Next(t, start), end) {
      forall tokenize: Tokenizer, maxPieces: nat | Monotone(tokenize, t, start, maxPieces)
        ensures FindsLongest(t, tokenize, maxPieces, start, end)
      {
        FindsIfNeverShort(t, tokenize, maxPieces, start, end);
      }
    } else {
      var maxPieces := MissesIfShort(t, start, end);
      assert Monotone(ByteCount(), t, start, maxPieces);
    }
  }

  /** The text never stops a search short that begins between these boundaries, as a function of its own. */
  function Never(t: Text, start: nat): (nat, nat) -> bool {
    (low: nat, high: nat) => start < low ==> NeverStopsShort(t, start, low, high)
  }

  /** If both outcomes of a comparison never stop short, the comparison does not. */
  ghost predicate Composes(t: Text, start: nat, never: (nat, nat) -> bool) {
    && (forall low: nat :: start < low ==> never(low, low))
    && (forall low: nat, high: nat, middle: nat, below: nat {:trigger never(middle, high), never(low, below)} ::
          IsMiddle(t, start, low, high, middle, below) && never(middle, high) && never(low, below) ==> never(low, high))
  }

  ghost predicate IsMiddle(t: Text, start: nat, low: nat, high: nat, middle: nat, below: nat) {
    start < low < middle <= high && below < middle && middle == Floor(t, low + HalfUp(high - low), start) && below == Below(t, middle, start)
  }

  lemma NeverComposes(t: Text, start: nat)
    ensures Composes(t, start, Never(t, start))
  {
    forall low: nat, high: nat, middle: nat, below: nat | IsMiddle(t, start, low, high, middle, below)
      ensures NeverStopsShort(t, start, middle, high) && NeverStopsShort(t, start, low, below) ==> NeverStopsShort(t, start, low, high)
    {
      NeverStep(t, start, low, high, middle);
    }
  }

  lemma SingleMiddle(t: Text, start: nat, low: nat, high: nat) returns (middle: nat, below: nat)
    requires start < low < high <= |t| && SingleBytes(t, low, high)
    ensures IsMiddle(t, start, low, high, middle, below) && low <= below && SingleBytes(t, middle, high) && SingleBytes(t, low, below)
  {
    middle, below := low + HalfUp(high - low), low + HalfUp(high - low) - 1;
    assert Boundary(t, middle) && Boundary(t, below);
  }

  lemma {:induction false} SingleBytesCompose(t: Text, never: (nat, nat) -> bool, start: nat, low: nat, high: nat)
    requires Composes(t, start, never) && start < low <= high <= |t| && SingleBytes(t, low, high)
    ensures never(low, high)
    decreases high - low
  {
    if low < high {
      var middle, below := SingleMiddle(t, start, low, high);
      SingleBytesCompose(t, never, start, middle, high);
      SingleBytesCompose(t, never, start, low, below);
    }
  }

  /** Among single bytes the search never stops short; the first scalar may be of any width. */
  lemma SingleBytesNeverStop(t: Text, start: nat, low: nat, high: nat)
    requires start < low <= high <= |t| && SingleBytes(t, low, high)
    ensures NeverStopsShort(t, start, low, high)
  {
    NeverComposes(t, start);
    SingleBytesCompose(t, Never(t, start), start, low, high);
  }

  const FIVE_FACES: Text := [0xF0, 0x9F, 0x98, 0x80, 0xF0, 0x9F, 0x98, 0x80, 0xF0, 0x9F, 0x98, 0x80, 0xF0, 0x9F, 0x98, 0x80,
                             0xF0, 0x9F, 0x98, 0x80]

  lemma FacesFloors()
    ensures Floor(FIVE_FACES, 12, 0) == 12 && Floor(FIVE_FACES, 11, 0) == 8 && Floor(FIVE_FACES, 6, 0) == 4
  {
    assert Floor(FIVE_FACES, 9, 0) == 8;
    assert Floor(FIVE_FACES, 5, 0) == 4;
  }

  lemma FacesAreValid()
    ensures Valid(FIVE_FACES) && Boundary(FIVE_FACES, 8)
  {
    var t := FIVE_FACES;
    assert forall i :: 0 <= i < 20 ==> (if i % 4 == 0 then t[i] == 0xF0 else Continuation(t[i]));
    FacesStart(t);
  }

  lemma FacesStart(t: Text)
    requires |t| == 20 && forall i :: 0 <= i < 20 ==> (if i % 4 == 0 then t[i] == 0xF0 else Continuation(t[i]))
    ensures Valid(t) && Boundary(t, 8)
  {
    forall i: nat | i < 20 && Boundary(t, i) ensures ScalarAt(t, i) {
      assert i % 4 == 0;
    }
  }

  lemma FacesSearch(t: Text, fits: nat -> bool)
    requires Floor(t, 12, 0) == 12 && Floor(t, 11, 0) == 8 && Floor(t, 6, 0) == 4 && !fits(12)
    ensures PrefixSearch(t, fits, 0, 4, 20) == 4
  {
    assert PrefixSearch(t, fits, 0, 4, 8) == 4;
  }

  /** The search is not maximal: of five four-byte scalars, two fit into eight bytes, and it settles for one. */
  lemma PrefixSearchIsNotMaximal()
    ensures Valid(FIVE_FACES) && Boundary(FIVE_FACES, 8) && Monotone(ByteCount(), FIVE_FACES, 0, 8)
    ensures Fits(ByteCount(), FIVE_FACES, 0, 8, 8) && LongestFound(FIVE_FACES, ByteCount(), 8, 0, 20) == 4
    ensures !NeverStopsShort(FIVE_FACES, 0, Next(FIVE_FACES, 0), 20)
  {
    FacesAreValid();
    FacesFloors();
    BytesFit(FIVE_FACES, 0, 8, 8);
    FacesSearch(FIVE_FACES, FitsFrom(ByteCount(), FIVE_FACES, 0, 8));
    NeverMeansFound(FIVE_FACES, ByteCount(), 8, 0, 20, 8);
  }

  /** The search with the ranges it asks for. */
  ghost function PrefixFrom(t: Text, tokenize: Tokenizer, maxPieces: nat, start: nat, low: nat, high: nat, pieces: nat): Traced<(nat, nat)>
    requires start < low
    decreases high - low
  {
    if low >= high then Traced(Ok((low, pieces)), [])
    else
      var middle := Floor(t, low + HalfUp(high - low), start);
      if middle <= low then Traced(Ok((low, pieces)), [])
      else
        var counted := PiecesAt(t, tokenize, start, middle);
        Behind([(start, middle)],
               if counted <= maxPieces then PrefixFrom(t, tokenize, maxPieces, start, middle, high, counted)
               else PrefixFrom(t, tokenize, maxPieces, start, low, Below(t, middle, start), pieces))
  }

  /** Between two comparisons: `low` fits, the search from here finds `found`, and what it asks for leads to `goal`. */
  ghost predicate Searching(tokenize: Tokenizer, t: Text, start: nat, end: nat, maxPieces: nat,
                            low: nat, high: nat, pieces: nat, found: nat, asked: seq<Ask>, goal: Traced<(nat, nat)>) {
    && start < low <= high <= end <= |t| && Boundary(t, low)
    && Counted(tokenize, t, start, low, pieces) && pieces <= maxPieces
    && PrefixSearch(t, FitsFrom(tokenize, t, start, maxPieces), start, low, high) == found
    && goal == Behind(asked, PrefixFrom(t, tokenize, maxPieces, start, low, high, pieces))
  }

  /** One comparison; `high` is returned as `low` when the search is over. */
  method SearchOnce(start: nat, end: nat, maxPieces: nat, counter: PieceCounter, low: nat, high: nat, pieces: nat, ghost found: nat,
                    ghost goal: Traced<(nat, nat)>)
    returns (r: Result<(nat, nat, nat), Error>)
    requires counter.Valid() && Valid(counter.text) && Boundary(counter.text, start) && low < high
    requires Searching(counter.tokenize, counter.text, start, end, maxPieces, low, high, pieces, found, counter.asked, goal)
    modifies counter
    ensures r.Ok? ==> counter.Valid() && r.value.1 >= r.value.0 && r.value.1 - r.value.0 < high - low
                      && Searching(counter.tokenize, counter.text, start, end, maxPieces, r.value.0, r.value.1, r.value.2, found,
                                   counter.asked, goal)
    ensures r.Err? ==> Explained(counter.text, counter.tokenize, maxPieces, r.error) && Outcome(counter.afford, goal, Err(r.error), counter.asked)
  {
    var t := counter.text;
    var middle := FloorBoundary(t, low + HalfUp(high - low), start);
    SearchStep(t, FitsFrom(counter.tokenize, t, start, maxPieces), start, low, high, middle);
    if middle <= low { return Ok((low, low, pieces)); }
    ghost var asked, part := counter.asked, CountOf(t, counter.tokenize, start, middle);
    ghost var rest := if part.value.value <= maxPieces then PrefixFrom(t, counter.tokenize, maxPieces, start, middle, high, part.value.value)
                      else PrefixFrom(t, counter.tokenize, maxPieces, start, low, Below(t, middle, start), pieces);
    var counted := counter.Count(start, middle);
    if counted.Err? {
      PartFails(counter, goal, asked, part, rest, counted, counter.asked);
      return Err(counted.error);
    }
    PartDone(counter.afford, goal, asked, part, rest, counted, counter.asked);
    if counted.value <= maxPieces { return Ok((middle, high, counted.value)); }
    var below := PreviousBoundary(t, middle, start);
    return Ok((low, below, pieces));
  }

  /** The longest prefix of scalars that is found to fit, or the first scalar that does not. */
  ghost function ScalarPrefix(t: Text, tokenize: Tokenizer, maxPieces: nat, start: nat, end: nat): Traced<(nat, nat)>
    requires start < |t|
  {
    var firstEnd := Next(t, start);
    var first := PiecesAt(t, tokenize, start, firstEnd);
    Behind([(start, firstEnd)],
           if first > maxPieces then Traced(Err(UnsplitableScalar(start, firstEnd, first)), [])
           else PrefixFrom(t, tokenize, maxPieces, start, firstEnd, end, first))
  }

  method FirstScalar(start: nat, end: nat, maxPieces: nat, counter: PieceCounter, ghost goal: Traced<(nat, nat)>) returns (r: Result<nat, Error>)
    requires counter.Valid() && Valid(counter.text)
    requires start < end <= |counter.text| && Boundary(counter.text, start) && Boundary(counter.text, end)
    requires goal == Behind(counter.asked, ScalarPrefix(counter.text, counter.tokenize, maxPieces, start, end))
    modifies counter
    ensures r.Ok? ==> counter.Valid() && Searching(counter.tokenize, counter.text, start, end, maxPieces, Next(counter.text, start), end, r.value,
                                                   PrefixSearch(counter.text, FitsFrom(counter.tokenize, counter.text, start, maxPieces),
                                                                start, Next(counter.text, start), end), counter.asked, goal)
    ensures r.Err? ==> Explained(counter.text, counter.tokenize, maxPieces, r.error) && Outcome(counter.afford, goal, Err(r.error), counter.asked)
  {
    var t := counter.text;
    StepWithin(t, start, end);
    var firstEnd := Next(t, start);
    ghost var asked, part := counter.asked, CountOf(t, counter.tokenize, start, firstEnd);
    ghost var first' := part.value.value;
    ghost var rest := if first' > maxPieces then Traced(Err(UnsplitableScalar(start, firstEnd, first')), [])
                      else PrefixFrom(t, counter.tokenize, maxPieces, start, firstEnd, end, first');
    var first := counter.Count(start, firstEnd);
    if first.Err? {
      PartFails(counter, goal, asked, part, rest, first, counter.asked);
      return Err(first.error);
    }
    PartDone(counter.afford, goal, asked, part, rest, first, counter.asked);
    if first.value > maxPieces {
      assert counter.asked + [] == counter.asked;
      return Err(UnsplitableScalar(start, firstEnd, first.value));
    }
    return Ok(first.value);
  }

  /** `largest_fitting_scalar_prefix`: what it returns fits, and is what the search function says. */
  method LargestFittingScalarPrefix(start: nat, end: nat, maxPieces: nat, counter: PieceCounter)
    returns (r: Result<(nat, nat), Error>)
    requires counter.Valid() && Valid(counter.text)
    requires start < end <= |counter.text| && Boundary(counter.text, start) && Boundary(counter.text, end)
    modifies counter
    ensures r.Ok? ==> counter.Valid() && start < r.value.0 <= end && Boundary(counter.text, r.value.0)
    ensures r.Ok? ==> Counted(counter.tokenize, counter.text, start, r.value.0, r.value.1) && r.value.1 <= maxPieces
    ensures r.Ok? ==> r.value.0 == PrefixSearch(counter.text, FitsFrom(counter.tokenize, counter.text, start, maxPieces),
                                                start, Next(counter.text, start), end)
    ensures r.Err? ==> Explained(counter.text, counter.tokenize, maxPieces, r.error)
    ensures Outcome(counter.afford, Behind(old(counter.asked), ScalarPrefix(counter.text, counter.tokenize, maxPieces, start, end)),
                    r, counter.asked)
  {
    var t := counter.text;
    ghost var goal := Behind(counter.asked, ScalarPrefix(t, counter.tokenize, maxPieces, start, end));
    var low: nat, high: nat := Next(t, start), end;
    ghost var found := PrefixSearch(t, FitsFrom(counter.tokenize, t, start, maxPieces), start, low, high);
    var first := FirstScalar(start, end, maxPieces, counter, goal);
    if first.Err? { return Err(first.error); }
    var pieces := first.value;
    while low < high
      invariant counter.Valid() && Searching(counter.tokenize, t, start, end, maxPieces, low, high, pieces, found, counter.asked, goal)
      decreases high - low
    {
      var next := SearchOnce(start, end, maxPieces, counter, low, high, pieces, found, goal);
      if next.Err? { return Err(next.error); }
      low, high, pieces := next.value.0, next.value.1, next.value.2;
    }
    assert counter.asked + [] == counter.asked;
    return Ok((low, pieces));
  }

  /** With a monotone counter, the prefix that is returned misses the largest fitting one by at most six bytes. */
  lemma ScalarPrefixIsNearLargest(t: Text, tokenize: Tokenizer, start: nat, end: nat, maxPieces: nat, e: nat)
    requires Valid(t) && start < end <= |t| && Boundary(t, start) && Boundary(t, end) && Monotone(tokenize, t, start, maxPieces)
    requires Next(t, start) <= e <= end && Boundary(t, e) && Fits(tokenize, t, start, e, maxPieces)
    ensures var found := LongestFound(t, tokenize, maxPieces, start, end);
            && Fits(tokenize, t, start, found, maxPieces) && Boundary(t, found)
            && e <= found + 6 && (SingleBytes(t, Next(t, start), end) ==> e <= found)
  {
    var fits, first := FitsFrom(tokenize, t, start, maxPieces), Next(t, start);
    StepWithin(t, start, end);
    assert fits(e) && fits(first);
    PrefixSearchFits(t, fits, start, first, end);
    PrefixSearchBound(t, fits, start, first, end, e);
    if SingleBytes(t, first, end) {
      SingleBytesNeverStop(t, start, first, end);
      NothingMissed(t, fits, start, first, end, e);
    }
  }

  // ---------------------------------------------------------------------------------- splitting and the whole function

  function Pushed(result: seq<Segment>, segment: Segment): Result<seq<Segment>, Error> {
    if |result| >= MAX_SEGMENTS then Err(TooManySegments) else Ok(result + [segment])
  }

  method PushSegment(result: seq<Segment>, segment: Segment) returns (r: Result<seq<Segment>, Error>)
    ensures r == Pushed(result, segment)
  {
    if |result| >= MAX_SEGMENTS { return Err(TooManySegments); }
    return Ok(result + [segment]);
  }

  /** Result so far: well-formed segments that tile `from..to`, each of at least one byte. */
  ghost predicate Built(t: Text, tokenize: Tokenizer, maxPieces: nat, segments: seq<Segment>, from: nat, to: nat) {
    SegmentsOk(t, tokenize, maxPieces, segments) && Tiles(Spans(segments), from, to) && from + |segments| <= to
  }

  lemma BuiltAppend(t: Text, tokenize: Tokenizer, maxPieces: nat, segments: seq<Segment>, from: nat, s: Segment)
    requires Built(t, tokenize, maxPieces, segments, from, s.span.contentStart) && |segments| < MAX_SEGMENTS
    requires SegmentOk(t, tokenize, maxPieces, s) && s.span.contentStart < s.span.separatorEnd
    ensures Built(t, tokenize, maxPieces, segments + [s], from, s.span.separatorEnd)
  {
    assert Spans(segments + [s]) == Spans(segments) + [s.span];
    TilesAppend(Spans(segments), from, s.span);
  }

  /** The priorities from this one on, until one has a fitting break. */
  ghost function SelectedFrom(t: Text, tokenize: Tokenizer, maxPieces: nat, points: seq<BreakPoint>, start: nat, end: nat, priority: nat)
    : Traced<Option<(BreakPoint, nat)>>
    decreases 3 - priority
  {
    if priority >= 3 then Traced(Ok(None), [])
    else
      var found := FoundBreak(t, tokenize, maxPieces, points, priority, start, end);
      Behind(found.asks, if found.value == Ok(None) then SelectedFrom(t, tokenize, maxPieces, points, start, end, priority + 1)
                         else Traced(found.value, []))
  }

  /** The first priority with a fitting break wins; each search is that of the whole unit. */
  method SelectBreak(points: seq<BreakPoint>, start: nat, end: nat, maxPieces: nat, counter: PieceCounter)
    returns (r: Result<Option<(BreakPoint, nat)>, Error>)
    requires counter.Valid() && Ordered(points) && start <= end <= |counter.text|
    requires forall i :: 0 <= i < |points| ==> points[i].contentEnd <= points[i].nextStart && Boundary(counter.text, points[i].contentEnd)
    modifies counter
    ensures r.Err? ==> Explained(counter.text, counter.tokenize, maxPieces, r.error)
    ensures r.Ok? ==> counter.Valid()
    ensures r.Ok? && r.value.Some? ==>
              && r.value.value.0 in points && IsCandidate(r.value.value.0, r.value.value.0.priority, start, end)
              && Counted(counter.tokenize, counter.text, start, r.value.value.0.contentEnd, r.value.value.1) && r.value.value.1 <= maxPieces
    ensures r.Ok? && Monotone(counter.tokenize, counter.text, start, maxPieces) ==>
              && (r.value.Some? ==> Rightmost(counter.tokenize, counter.text, points, r.value.value.0.priority, start, end, maxPieces, r.value))
              && (forall priority :: 0 <= priority <= 2 && (r.value.Some? ==> priority < r.value.value.0.priority) ==>
                    Rightmost(counter.tokenize, counter.text, points, priority, start, end, maxPieces, None))
    ensures Outcome(counter.afford, Behind(old(counter.asked), SelectedFrom(counter.text, counter.tokenize, maxPieces, points, start, end, 0)),
                    r, counter.asked)
  {
    ghost var t, tokenize := counter.text, counter.tokenize;
    ghost var goal := Behind(counter.asked, SelectedFrom(t, tokenize, maxPieces, points, start, end, 0));
    for priority := 0 to 3
      invariant counter.Valid() && goal == Behind(counter.asked, SelectedFrom(t, tokenize, maxPieces, points, start, end, priority))
      invariant Monotone(counter.tokenize, counter.text, start, maxPieces) ==>
                  forall p :: 0 <= p < priority ==> Rightmost(counter.tokenize, counter.text, points, p, start, end, maxPieces, None)
    {
      ghost var asked, part := counter.asked, FoundBreak(t, tokenize, maxPieces, points, priority, start, end);
      ghost var rest := if part.value == Ok(None) then SelectedFrom(t, tokenize, maxPieces, points, start, end, priority + 1)
                        else Traced(part.value, []);
      var found := RightmostFittingBreak(points, priority, start, end, maxPieces, counter);
      if found.Err? {
        PartFails(counter, goal, asked, part, rest, found, counter.asked);
        return Err(found.error);
      }
      PartDone(counter.afford, goal, asked, part, rest, found, counter.asked);
      if found.value.Some? {
        assert counter.asked + [] == counter.asked;
        return found;
      }
    }
    assert counter.asked + [] == counter.asked;
    return Ok(None);
  }

  /** A cut of the unit's content from `start` on, strictly inside the unit. */
  ghost predicate CutOk(t: Text, tokenize: Tokenizer, unit: Span, start: nat, maxPieces: nat, cut: Segment) {
    && SegmentOk(t, tokenize, maxPieces, cut)
    && cut.span.contentStart == start < cut.span.separatorEnd < unit.contentEnd
  }

  ghost predicate CanCut(t: Text, points: seq<BreakPoint>, unit: Span, start: nat) {
    && Valid(t) && SpanOk(t, unit) && unit.contentStart <= start < unit.contentEnd && Boundary(t, start) && Ordered(points)
    && (forall p :: p in points ==> PointOk(t, unit.contentStart, unit.contentEnd, p))
    && (forall p :: p in points <==> IsBreak(t, unit.contentStart, unit.contentEnd, p))
  }

  /** A break point of the unit strictly between `start` and the unit's end, before which everything fits. */
  ghost predicate FittingBreak(t: Text, tokenize: Tokenizer, unit: Span, start: nat, maxPieces: nat, p: BreakPoint) {
    && IsBreak(t, unit.contentStart, unit.contentEnd, p) && IsCandidate(p, p.priority, start, unit.contentEnd)
    && Fits(tokenize, t, start, p.contentEnd, maxPieces)
  }

  ghost predicate Preferred(p: BreakPoint, q: BreakPoint) {
    p.priority < q.priority || (p.priority == q.priority && q.contentEnd <= p.contentEnd)
  }

  ghost predicate AtBestBreak(t: Text, tokenize: Tokenizer, unit: Span, maxPieces: nat, s: Span) {
    exists p {:trigger FittingBreak(t, tokenize, unit, s.contentStart, maxPieces, p)} ::
      && FittingBreak(t, tokenize, unit, s.contentStart, maxPieces, p)
      && s == Span(s.contentStart, p.contentEnd, p.contentEnd, p.nextStart)
      && forall q {:trigger FittingBreak(t, tokenize, unit, s.contentStart, maxPieces, q)} ::
           FittingBreak(t, tokenize, unit, s.contentStart, maxPieces, q) ==> Preferred(p, q)
  }

  ghost predicate NoFittingBreak(t: Text, tokenize: Tokenizer, unit: Span, start: nat, maxPieces: nat) {
    forall q {:trigger FittingBreak(t, tokenize, unit, start, maxPieces, q)} :: !FittingBreak(t, tokenize, unit, start, maxPieces, q)
  }

  ghost predicate AtScalar(t: Text, tokenize: Tokenizer, unit: Span, maxPieces: nat, s: Span) {
    s.contentStart < |t| &&
    var e := PrefixSearch(t, FitsFrom(tokenize, t, s.contentStart, maxPieces), s.contentStart, Next(t, s.contentStart), unit.contentEnd);
    s == Span(s.contentStart, e, e, e)
  }

  /** Cut only where the remainder does not fit; with monotone counts at the best fitting break, or between scalars if there is none. */
  ghost predicate WellCut(t: Text, tokenize: Tokenizer, unit: Span, maxPieces: nat, s: Span) {
    && !Fits(tokenize, t, s.contentStart, unit.contentEnd, maxPieces)
    && (Monotone(tokenize, t, s.contentStart, maxPieces) ==>
          || AtBestBreak(t, tokenize, unit, maxPieces, s)
          || (NoFittingBreak(t, tokenize, unit, s.contentStart, maxPieces) && AtScalar(t, tokenize, unit, maxPieces, s)))
  }

  lemma BreakIsBest(t: Text, tokenize: Tokenizer, points: seq<BreakPoint>, unit: Span, start: nat, maxPieces: nat, p: BreakPoint, pieces: nat)
    requires CanCut(t, points, unit, start) && p in points && IsCandidate(p, p.priority, start, unit.contentEnd)
    requires Fits(tokenize, t, start, p.contentEnd, maxPieces)
    requires Rightmost(tokenize, t, points, p.priority, start, unit.contentEnd, maxPieces, Some((p, pieces)))
    requires forall priority :: 0 <= priority < p.priority ==>
               Rightmost(tokenize, t, points, priority, start, unit.contentEnd, maxPieces, None)
    ensures AtBestBreak(t, tokenize, unit, maxPieces, Span(start, p.contentEnd, p.contentEnd, p.nextStart))
  {
    assert FittingBreak(t, tokenize, unit, start, maxPieces, p);
    forall q ensures FittingBreak(t, tokenize, unit, start, maxPieces, q) ==> Preferred(p, q) {
      if q in points && q.priority < p.priority {
        assert Rightmost(tokenize, t, points, q.priority, start, unit.contentEnd, maxPieces, None);
      }
    }
  }

  lemma NoBreakFits(t: Text, tokenize: Tokenizer, points: seq<BreakPoint>, unit: Span, start: nat, maxPieces: nat)
    requires CanCut(t, points, unit, start)
    requires forall priority :: 0 <= priority <= 2 ==> Rightmost(tokenize, t, points, priority, start, unit.contentEnd, maxPieces, None)
    ensures NoFittingBreak(t, tokenize, unit, start, maxPieces)
  {
    forall q ensures !FittingBreak(t, tokenize, unit, start, maxPieces, q) {
      if q in points {
        assert PointOk(t, unit.contentStart, unit.contentEnd, q);
        assert Rightmost(tokenize, t, points, q.priority, start, unit.contentEnd, maxPieces, None);
      }
    }
  }

  ghost function BreakCut(t: Text, tokenize: Tokenizer, maxPieces: nat, points: seq<BreakPoint>, unit: Span, start: nat): Traced<Option<Segment>> {
    var selected := SelectedFrom(t, tokenize, maxPieces, points, start, unit.contentEnd, 0);
    Traced(if selected.value.Err? then Err(selected.value.error)
           else if selected.value.value.None? then Ok(None)
           else
             var (point, pieces) := selected.value.value.value;
             Ok(Some(Segment(Span(start, point.contentEnd, point.contentEnd, point.nextStart), pieces))),
           selected.asks)
  }

  ghost function ScalarCut(t: Text, tokenize: Tokenizer, maxPieces: nat, unit: Span, start: nat): Traced<Segment>
    requires start < |t|
  {
    var prefix := ScalarPrefix(t, tokenize, maxPieces, start, unit.contentEnd);
    Traced(if prefix.value.Err? then Err(prefix.value.error)
           else Ok(Segment(Span(start, prefix.value.value.0, prefix.value.value.0, prefix.value.value.0), prefix.value.value.1)),
           prefix.asks)
  }

  /** One cut: at a break if one fits, else between scalars. */
  ghost function CutFrom(t: Text, tokenize: Tokenizer, maxPieces: nat, points: seq<BreakPoint>, unit: Span, start: nat): Traced<Segment>
    requires start < |t|
  {
    var atBreak := BreakCut(t, tokenize, maxPieces, points, unit, start);
    Behind(atBreak.asks,
           if atBreak.value.Err? then Traced(Err(atBreak.value.error), [])
           else if atBreak.value.value.Some? then Traced(Ok(atBreak.value.value.value), [])
           else ScalarCut(t, tokenize, maxPieces, unit, start))
  }

  method CutAtBreak(points: seq<BreakPoint>, unit: Span, start: nat, maxPieces: nat, counter: PieceCounter)
    returns (r: Result<Option<Segment>, Error>)
    requires counter.Valid() && CanCut(counter.text, points, unit, start)
    modifies counter
    ensures r.Err? ==> Explained(counter.text, counter.tokenize, maxPieces, r.error)
    ensures r.Ok? ==> counter.Valid()
    ensures r.Ok? && r.value.Some? ==> CutOk(counter.text, counter.tokenize, unit, start, maxPieces, r.value.value)
    ensures r.Ok? && Monotone(counter.tokenize, counter.text, start, maxPieces) ==>
              if r.value.Some? then AtBestBreak(counter.text, counter.tokenize, unit, maxPieces, r.value.value.span)
              else NoFittingBreak(counter.text, counter.tokenize, unit, start, maxPieces)
    ensures Outcome(counter.afford, Behind(old(counter.asked), BreakCut(counter.text, counter.tokenize, maxPieces, points, unit, start)),
                    r, counter.asked)
  {
    assert forall i :: 0 <= i < |points| ==> points[i] in points;
    var selected := SelectBreak(points, start, unit.contentEnd, maxPieces, counter);
    if selected.Err? { return Err(selected.error); }
    if selected.value.None? {
      if Monotone(counter.tokenize, counter.text, start, maxPieces) {
        NoBreakFits(counter.text, counter.tokenize, points, unit, start, maxPieces);
      }
      return Ok(None);
    }
    var (point, pieces) := selected.value.value;
    if Monotone(counter.tokenize, counter.text, start, maxPieces) {
      BreakIsBest(counter.text, counter.tokenize, points, unit, start, maxPieces, point, pieces);
    }
    assert PointOk(counter.text, unit.contentStart, unit.contentEnd, point);
    CutIsOk(counter.text, counter.tokenize, unit, start, point.contentEnd, point.nextStart, pieces, maxPieces);
    return Ok(Some(Segment(Span(start, point.contentEnd, point.contentEnd, point.nextStart), pieces)));
  }

  /** The scalar prefix cannot reach the end of a remainder that does not fit. */
  lemma PrefixCutIsOk(t: Text, tokenize: Tokenizer, unit: Span, start: nat, end: nat, pieces: nat, maxPieces: nat)
    requires SpanOk(t, unit) && unit.contentStart <= start < end <= unit.contentEnd && Boundary(t, start) && Boundary(t, end)
    requires Counted(tokenize, t, start, end, pieces) && pieces <= maxPieces
    requires !Fits(tokenize, t, start, unit.contentEnd, maxPieces)
    ensures CutOk(t, tokenize, unit, start, maxPieces, Segment(Span(start, end, end, end), pieces))
  {
    CutIsOk(t, tokenize, unit, start, end, end, pieces, maxPieces);
  }

  method CutAtScalar(unit: Span, start: nat, maxPieces: nat, counter: PieceCounter)
    returns (r: Result<Segment, Error>)
    requires counter.Valid() && Valid(counter.text) && SpanOk(counter.text, unit)
    requires unit.contentStart <= start < unit.contentEnd && Boundary(counter.text, start)
    requires !Fits(counter.tokenize, counter.text, start, unit.contentEnd, maxPieces)
    modifies counter
    ensures r.Err? ==> Explained(counter.text, counter.tokenize, maxPieces, r.error)
    ensures r.Ok? ==> counter.Valid() && CutOk(counter.text, counter.tokenize, unit, start, maxPieces, r.value)
    ensures r.Ok? ==> AtScalar(counter.text, counter.tokenize, unit, maxPieces, r.value.span)
    ensures Outcome(counter.afford, Behind(old(counter.asked), ScalarCut(counter.text, counter.tokenize, maxPieces, unit, start)), r, counter.asked)
  {
    var prefix := LargestFittingScalarPrefix(start, unit.contentEnd, maxPieces, counter);
    if prefix.Err? { return Err(prefix.error); }
    var end, pieces := prefix.value.0, prefix.value.1;
    PrefixCutIsOk(counter.text, counter.tokenize, unit, start, end, pieces, maxPieces);
    return Ok(Segment(Span(start, end, end, end), pieces));
  }

  /** One cut of an oversize remainder: a break if one fits, else a run of scalars. */
  method CutOnce(points: seq<BreakPoint>, unit: Span, start: nat, maxPieces: nat, counter: PieceCounter)
    returns (r: Result<Segment, Error>)
    requires counter.Valid() && CanCut(counter.text, points, unit, start)
    requires !Fits(counter.tokenize, counter.text, start, unit.contentEnd, maxPieces)
    modifies counter
    ensures r.Err? ==> Explained(counter.text, counter.tokenize, maxPieces, r.error)
    ensures r.Ok? ==> counter.Valid() && CutOk(counter.text, counter.tokenize, unit, start, maxPieces, r.value)
    ensures r.Ok? ==> WellCut(counter.text, counter.tokenize, unit, maxPieces, r.value.span)
    ensures Outcome(counter.afford, Behind(old(counter.asked), CutFrom(counter.text, counter.tokenize, maxPieces, points, unit, start)),
                    r, counter.asked)
  {
    ghost var t, tokenize, asked := counter.text, counter.tokenize, counter.asked;
    ghost var goal := Behind(asked, CutFrom(t, tokenize, maxPieces, points, unit, start));
    ghost var part := BreakCut(t, tokenize, maxPieces, points, unit, start);
    ghost var rest := if part.value.Err? then Traced(Err(part.value.error), [])
                      else if part.value.value.Some? then Traced(Ok(part.value.value.value), [])
                      else ScalarCut(t, tokenize, maxPieces, unit, start);
    var atBreak := CutAtBreak(points, unit, start, maxPieces, counter);
    if atBreak.Err? {
      PartFails(counter, goal, asked, part, rest, atBreak, counter.asked);
      return Err(atBreak.error);
    }
    PartDone(counter.afford, goal, asked, part, rest, atBreak, counter.asked);
    if atBreak.value.Some? {
      assert counter.asked + [] == counter.asked;
      return Ok(atBreak.value.value);
    }
    r := CutAtScalar(unit, start, maxPieces, counter);
  }

  lemma CutIsOk(t: Text, tokenize: Tokenizer, unit: Span, start: nat, end: nat, next: nat, pieces: nat, maxPieces: nat)
    requires SpanOk(t, unit) && unit.contentStart <= start <= end <= next <= unit.contentEnd
    requires Boundary(t, start) && Boundary(t, end) && Boundary(t, next) && AllWhite(t, end, next)
    requires Counted(tokenize, t, start, end, pieces) && pieces <= maxPieces
    ensures SegmentOk(t, tokenize, maxPieces, Segment(Span(start, end, end, next), pieces))
  {
  }

  /** A piece of a unit: within its content, and either cut well or what is left at the end. */
  ghost predicate PieceOf(t: Text, tokenize: Tokenizer, maxPieces: nat, unit: Span, s: Span) {
    && unit.contentStart <= s.contentStart && s.contentEnd <= unit.contentEnd
    && ((s.contentEnd == unit.contentEnd && s.separatorEnd == unit.separatorEnd) || WellCut(t, tokenize, unit, maxPieces, s))
  }

  /** The new segments are pieces of the unit. */
  ghost predicate Pieces(t: Text, tokenize: Tokenizer, maxPieces: nat, unit: Span, before: seq<Segment>, after: seq<Segment>) {
    && before <= after
    && forall k: nat {:trigger after[k]} :: |before| <= k < |after| ==> PieceOf(t, tokenize, maxPieces, unit, after[k].span)
  }

  lemma PiecesAppend(t: Text, tokenize: Tokenizer, maxPieces: nat, unit: Span, before: seq<Segment>, after: seq<Segment>, s: Segment)
    requires Pieces(t, tokenize, maxPieces, unit, before, after) && PieceOf(t, tokenize, maxPieces, unit, s.span)
    ensures Pieces(t, tokenize, maxPieces, unit, before, after + [s])
  {
  }

  /** The last segment takes over the separator of its unit. */
  function Extended(output: seq<Segment>, unit: Span): seq<Segment> {
    if unit.separatorStart < unit.separatorEnd && output != [] then
      var last := output[|output| - 1];
      output[|output| - 1 := last.(span := last.span.(separatorEnd := unit.separatorEnd))]
    else output
  }

  /** What is left of a unit from `start` on, cut into pieces behind `output`. */
  ghost function SplitFrom(t: Text, tokenize: Tokenizer, maxPieces: nat, points: seq<BreakPoint>, unit: Span, start: nat, output: seq<Segment>)
    : Traced<seq<Segment>>
    decreases unit.contentEnd - start, 1
  {
    if start >= unit.contentEnd || start >= |t| then Traced(Ok(Extended(output, unit)), [])
    else
      var remaining := PiecesAt(t, tokenize, start, unit.contentEnd);
      Behind([(start, unit.contentEnd)],
             if remaining <= maxPieces
             then Traced(Pushed(output, Segment(Span(start, unit.contentEnd, unit.separatorStart, unit.separatorEnd), remaining)), [])
             else
               var cut := CutFrom(t, tokenize, maxPieces, points, unit, start);
               Behind(cut.asks, SplitBehind(t, tokenize, maxPieces, points, unit, start, output, cut.value)))
  }

  /** The pieces behind a cut. */
  ghost function SplitBehind(t: Text, tokenize: Tokenizer, maxPieces: nat, points: seq<BreakPoint>, unit: Span, start: nat, output: seq<Segment>,
                             cut: Result<Segment, Error>): Traced<seq<Segment>>
    requires start < unit.contentEnd
    decreases unit.contentEnd - start, 0
  {
    if cut.Err? then Traced(Err(cut.error), [])
    else
      var pushed := Pushed(output, cut.value);
      if pushed.Err? || cut.value.span.separatorEnd <= start then Traced(pushed, [])
      else SplitFrom(t, tokenize, maxPieces, points, unit, cut.value.span.separatorEnd, pushed.value)
  }

  /** Between two cuts of a unit with content. */
  ghost predicate Cutting(t: Text, tokenize: Tokenizer, maxPieces: nat, points: seq<BreakPoint>, unit: Span, before: seq<Segment>, from: nat,
                          start: nat, output: seq<Segment>)
  {
    && CanCut(t, points, unit, start) && Built(t, tokenize, maxPieces, output, from, start)
    && Pieces(t, tokenize, maxPieces, unit, before, output)
  }

  lemma PieceAppended(t: Text, tokenize: Tokenizer, maxPieces: nat, points: seq<BreakPoint>, unit: Span, before: seq<Segment>, from: nat,
                      start: nat, output: seq<Segment>, s: Segment)
    requires Cutting(t, tokenize, maxPieces, points, unit, before, from, start, output) && |output| < MAX_SEGMENTS
    requires SegmentOk(t, tokenize, maxPieces, s) && s.span.contentStart == start < s.span.separatorEnd
    requires PieceOf(t, tokenize, maxPieces, unit, s.span)
    ensures Built(t, tokenize, maxPieces, output + [s], from, s.span.separatorEnd)
    ensures Pieces(t, tokenize, maxPieces, unit, before, output + [s])
  {
    BuiltAppend(t, tokenize, maxPieces, output, from, s);
    PiecesAppend(t, tokenize, maxPieces, unit, before, output, s);
  }

  /** One cut of the remainder, which does not fit. */
  method SplitOnce(points: seq<BreakPoint>, unit: Span, start: nat, maxPieces: nat, counter: PieceCounter, output: seq<Segment>,
                   ghost before: seq<Segment>, ghost from: nat, ghost goal: Traced<seq<Segment>>)
    returns (r: Result<(seq<Segment>, nat), Error>)
    requires counter.Valid() && Cutting(counter.text, counter.tokenize, maxPieces, points, unit, before, from, start, output)
    requires !Fits(counter.tokenize, counter.text, start, unit.contentEnd, maxPieces)
    requires var cut := CutFrom(counter.text, counter.tokenize, maxPieces, points, unit, start);
             goal == Behind(counter.asked, Behind(cut.asks, SplitBehind(counter.text, counter.tokenize, maxPieces, points, unit, start, output,
                                                                        cut.value)))
    modifies counter
    ensures r.Ok? ==> counter.Valid() && start < r.value.1
                      && Cutting(counter.text, counter.tokenize, maxPieces, points, unit, before, from, r.value.1, r.value.0)
    ensures r.Ok? ==> goal == Behind(counter.asked, SplitFrom(counter.text, counter.tokenize, maxPieces, points, unit, r.value.1, r.value.0))
    ensures r.Err? ==> Explained(counter.text, counter.tokenize, maxPieces, r.error) && Outcome(counter.afford, goal, Err(r.error), counter.asked)
  {
    ghost var t, tokenize, asked := counter.text, counter.tokenize, counter.asked;
    ghost var part := CutFrom(t, tokenize, maxPieces, points, unit, start);
    ghost var rest := SplitBehind(t, tokenize, maxPieces, points, unit, start, output, part.value);
    var cut := CutOnce(points, unit, start, maxPieces, counter);
    if cut.Err? {
      PartFails(counter, goal, asked, part, rest, cut, counter.asked);
      return Err(cut.error);
    }
    PartDone(counter.afford, goal, asked, part, rest, cut, counter.asked);
    var pushed := PushSegment(output, cut.value);
    if pushed.Err? {
      BuiltIsShort(t, tokenize, maxPieces, output, from, start);
      assert counter.asked + [] == counter.asked;
      return Err(pushed.error);
    }
    PieceAppended(t, tokenize, maxPieces, points, unit, before, from, start, output, cut.value);
    return Ok((pushed.value, cut.value.span.separatorEnd));
  }

  lemma BuiltIsShort(t: Text, tokenize: Tokenizer, maxPieces: nat, output: seq<Segment>, from: nat, to: nat)
    requires Built(t, tokenize, maxPieces, output, from, to) && |output| >= MAX_SEGMENTS && to < |t|
    ensures Explained(t, tokenize, maxPieces, TooManySegments)
  {
  }

  /** The remainder as a last piece, if it fits. */
  method SplitRest(points: seq<BreakPoint>, unit: Span, start: nat, maxPieces: nat, counter: PieceCounter, output: seq<Segment>,
                   ghost before: seq<Segment>, ghost from: nat, ghost goal: Traced<seq<Segment>>)
    returns (r: Result<Option<seq<Segment>>, Error>)
    requires counter.Valid() && Cutting(counter.text, counter.tokenize, maxPieces, points, unit, before, from, start, output)
    requires goal == Behind(counter.asked, SplitFrom(counter.text, counter.tokenize, maxPieces, points, unit, start, output))
    modifies counter
    ensures r.Ok? ==> counter.Valid()
    ensures r.Ok? && r.value.Some? ==>
              && Built(counter.text, counter.tokenize, maxPieces, r.value.value, from, unit.separatorEnd)
              && Pieces(counter.text, counter.tokenize, maxPieces, unit, before, r.value.value)
              && Outcome(counter.afford, goal, Ok(r.value.value), counter.asked)
    ensures r.Ok? && r.value.None? ==>
              && !Fits(counter.tokenize, counter.text, start, unit.contentEnd, maxPieces)
              && var cut := CutFrom(counter.text, counter.tokenize, maxPieces, points, unit, start);
                 goal == Behind(counter.asked, Behind(cut.asks, SplitBehind(counter.text, counter.tokenize, maxPieces, points, unit, start, output,
                                                                            cut.value)))
    ensures r.Err? ==> Explained(counter.text, counter.tokenize, maxPieces, r.error) && Outcome(counter.afford, goal, Err(r.error), counter.asked)
  {
    ghost var t, tokenize, asked := counter.text, counter.tokenize, counter.asked;
    ghost var part := CountOf(t, tokenize, start, unit.contentEnd);
    ghost var cut := CutFrom(t, tokenize, maxPieces, points, unit, start);
    ghost var pieces := part.value.value;
    ghost var rest := if pieces <= maxPieces
      then Traced(Pushed(output, Segment(Span(start, unit.contentEnd, unit.separatorStart, unit.separatorEnd), pieces)), [])
      else Behind(cut.asks, SplitBehind(t, tokenize, maxPieces, points, unit, start, output, cut.value));
    var remaining := counter.Count(start, unit.contentEnd);
    if remaining.Err? {
      PartFails(counter, goal, asked, part, rest, remaining, counter.asked);
      return Err(remaining.error);
    }
    PartDone(counter.afford, goal, asked, part, rest, remaining, counter.asked);
    if remaining.value > maxPieces { return Ok(None); }
    var last := Segment(Span(start, unit.contentEnd, unit.separatorStart, unit.separatorEnd), remaining.value);
    assert counter.asked + [] == counter.asked;
    var pushed := PushSegment(output, last);
    if pushed.Err? {
      BuiltIsShort(t, tokenize, maxPieces, output, from, start);
      return Err(pushed.error);
    }
    PieceAppended(t, tokenize, maxPieces, points, unit, before, from, start, output, last);
    return Ok(Some(pushed.value));
  }

  /** `split_oversize_unit` on a unit with content: the pieces tile it, separator included. */
  method SplitOversizeUnit(unit: Span, maxPieces: nat, counter: PieceCounter, result: seq<Segment>, ghost from: nat)
    returns (r: Result<seq<Segment>, Error>)
    requires counter.Valid() && Valid(counter.text) && SpanOk(counter.text, unit)
    requires NonEmpty(unit) ==> Built(counter.text, counter.tokenize, maxPieces, result, from, unit.contentStart)
    modifies counter
    ensures r.Err? ==> Explained(counter.text, counter.tokenize, maxPieces, r.error)
    ensures r.Ok? ==> counter.Valid()
    ensures r.Ok? && NonEmpty(unit) ==> Built(counter.text, counter.tokenize, maxPieces, r.value, from, unit.separatorEnd)
    ensures r.Ok? && NonEmpty(unit) ==> Pieces(counter.text, counter.tokenize, maxPieces, unit, result, r.value)
    ensures !NonEmpty(unit) && result == [] ==> r == Ok([])
    ensures Outcome(counter.afford, Behind(old(counter.asked), SplitFrom(counter.text, counter.tokenize, maxPieces,
                      PointsFrom(counter.text, unit.contentStart, unit.contentEnd, unit.contentStart), unit, unit.contentStart, result)),
                    r, counter.asked)
  {
    ghost var t, tokenize := counter.text, counter.tokenize;
    var points := FallbackBreakPoints(counter.text, unit.contentStart, unit.contentEnd);
    var start := unit.contentStart;
    var output := result;
    ghost var goal := Behind(counter.asked, SplitFrom(t, tokenize, maxPieces, points, unit, start, output));
    while start < unit.contentEnd
      invariant counter.Valid() && unit.contentStart <= start && goal == Behind(counter.asked, SplitFrom(t, tokenize, maxPieces, points, unit, start, output))
      invariant if NonEmpty(unit) then Cutting(t, tokenize, maxPieces, points, unit, result, from, start, output) else output == result
      decreases unit.contentEnd - start
    {
      var rest := SplitRest(points, unit, start, maxPieces, counter, output, result, from, goal);
      if rest.Err? { return Err(rest.error); }
      if rest.value.Some? { return Ok(rest.value.value); }
      var cut := SplitOnce(points, unit, start, maxPieces, counter, output, result, from, goal);
      if cut.Err? { return Err(cut.error); }
      output, start := cut.value.0, cut.value.1;
    }
    assert counter.asked + [] == counter.asked;
    if unit.separatorStart < unit.separatorEnd && output != [] {
      var last := output[|output| - 1];
      output := output[|output| - 1 := last.(span := last.span.(separatorEnd := unit.separatorEnd))];
    }
    return Ok(output);
  }

  /** The tokenizer gives even the empty text more pieces than allowed. */
  ghost predicate EmptyOverflows(tokenize: Tokenizer, maxPieces: nat) {
    tokenize([]).Ok? && tokenize([]).value > maxPieces
  }

  /** Where the segments of these units start: behind an empty first unit, if that is lost. */
  ghost function KeptFrom(tokenize: Tokenizer, maxPieces: nat, units: seq<Span>): nat {
    if units != [] && !NonEmpty(units[0]) && EmptyOverflows(tokenize, maxPieces) then units[0].separatorEnd else 0
  }

  lemma {:induction false} TilesAdjacent(spans: seq<Span>, from: nat, to: nat, i: nat)
    requires Tiles(spans, from, to) && i < |spans|
    ensures spans[i].contentStart == if i == 0 then from else spans[i - 1].separatorEnd
    ensures i == |spans| - 1 ==> spans[i].separatorEnd == to
  {
    if i < |spans| - 1 {
      TilesAdjacent(spans[..|spans| - 1], from, spans[|spans| - 1].contentStart, i);
    } else if i > 0 {
      TilesAdjacent(spans[..|spans| - 1], from, spans[|spans| - 1].contentStart, i - 1);
    }
  }

  /** Ready for this unit of at least one byte: the segments reach its content, or there are none yet and it is an empty first unit. */
  ghost predicate Ready(t: Text, tokenize: Tokenizer, maxPieces: nat, unit: Span, result: seq<Segment>, from: nat) {
    && unit.contentStart < unit.separatorEnd
    && if NonEmpty(unit) then Built(t, tokenize, maxPieces, result, from, unit.contentStart)
       else result == [] && from == if EmptyOverflows(tokenize, maxPieces) then unit.separatorEnd else unit.contentStart
  }

  /** The segment holds one sentence, or is a piece of one that does not fit as a whole. */
  ghost predicate OfOneSentence(t: Text, tokenize: Tokenizer, maxPieces: nat, periodEnds: PeriodRule, end: nat, s: Segment) {
    exists unit: Span {:trigger OneSentence(t, periodEnds, unit, end)} ::
      && OneSentence(t, periodEnds, unit, end)
      && (s.span == unit
          || (!Fits(tokenize, t, unit.contentStart, unit.contentEnd, maxPieces) && PieceOf(t, tokenize, maxPieces, unit, s.span)))
  }

  ghost predicate AllOfOne(t: Text, tokenize: Tokenizer, maxPieces: nat, periodEnds: PeriodRule, end: nat, segments: seq<Segment>) {
    forall k: nat {:trigger segments[k]} :: k < |segments| ==> OfOneSentence(t, tokenize, maxPieces, periodEnds, end, segments[k])
  }

  /** A unit's own segments, whole or cut, are of the one sentence it holds. */
  lemma UnitSegments(t: Text, tokenize: Tokenizer, maxPieces: nat, periodEnds: PeriodRule, end: nat, unit: Span,
                     before: seq<Segment>, after: seq<Segment>)
    requires AllOfOne(t, tokenize, maxPieces, periodEnds, end, before) && OneSentence(t, periodEnds, unit, end)
    requires Pieces(t, tokenize, maxPieces, unit, before, after)
    requires !Fits(tokenize, t, unit.contentStart, unit.contentEnd, maxPieces)
             || (|after| == |before| + 1 && after[|before|].span == unit)
    ensures AllOfOne(t, tokenize, maxPieces, periodEnds, end, after)
  {
    forall k: nat | k < |after| ensures OfOneSentence(t, tokenize, maxPieces, periodEnds, end, after[k]) {
      if k < |before| { assert after[k] == before[k]; }
    }
  }

  /** A unit as one segment if it fits, else its pieces, behind `result`. */
  ghost function UnitFrom(t: Text, tokenize: Tokenizer, maxPieces: nat, unit: Span, result: seq<Segment>): Traced<seq<Segment>> {
    var pieces := PiecesAt(t, tokenize, unit.contentStart, unit.contentEnd);
    Behind([(unit.contentStart, unit.contentEnd)],
           if pieces <= maxPieces then Traced(Pushed(result, Segment(unit, pieces)), [])
           else SplitFrom(t, tokenize, maxPieces, PointsFrom(t, unit.contentStart, unit.contentEnd, unit.contentStart), unit,
                          unit.contentStart, result))
  }

  /** The units from the `n`-th on, behind `result`. */
  ghost function UnitsFrom(t: Text, tokenize: Tokenizer, maxPieces: nat, units: seq<Span>, n: nat, result: seq<Segment>): Traced<seq<Segment>>
    decreases |units| - n
  {
    if n >= |units| then Traced(Ok(result), [])
    else
      var unit := UnitFrom(t, tokenize, maxPieces, units[n], result);
      Behind(unit.asks, if unit.value.Err? then Traced(Err(unit.value.error), [])
                        else UnitsFrom(t, tokenize, maxPieces, units, n + 1, unit.value.value))
  }

  /** One unit: pushed if it fits, split if not. */
  method SegmentUnit(unit: Span, maxPieces: nat, counter: PieceCounter, result: seq<Segment>, ghost from: nat)
    returns (r: Result<seq<Segment>, Error>)
    requires counter.Valid() && Valid(counter.text) && SpanOk(counter.text, unit)
    requires Ready(counter.text, counter.tokenize, maxPieces, unit, result, from)
    modifies counter
    ensures r.Err? ==> Explained(counter.text, counter.tokenize, maxPieces, r.error)
    ensures r.Ok? ==> counter.Valid() && Built(counter.text, counter.tokenize, maxPieces, r.value, from, unit.separatorEnd)
    ensures r.Ok? ==> Pieces(counter.text, counter.tokenize, maxPieces, unit, result, r.value)
    ensures r.Ok? && Fits(counter.tokenize, counter.text, unit.contentStart, unit.contentEnd, maxPieces) ==>
              |r.value| == |result| + 1 && r.value[|result|].span == unit
    ensures Outcome(counter.afford, Behind(old(counter.asked), UnitFrom(counter.text, counter.tokenize, maxPieces, unit, result)), r, counter.asked)
  {
    ghost var t, tokenize, asked := counter.text, counter.tokenize, counter.asked;
    ghost var goal := Behind(asked, UnitFrom(t, tokenize, maxPieces, unit, result));
    ghost var part := CountOf(t, tokenize, unit.contentStart, unit.contentEnd);
    ghost var split := SplitFrom(t, tokenize, maxPieces, PointsFrom(t, unit.contentStart, unit.contentEnd, unit.contentStart), unit,
                                 unit.contentStart, result);
    ghost var whole := Traced(Pushed(result, Segment(unit, part.value.value)), []);
    ghost var rest := if part.value.value <= maxPieces then whole else split;
    var pieces := counter.Count(unit.contentStart, unit.contentEnd);
    if pieces.Err? {
      PartFails(counter, goal, asked, part, rest, pieces, counter.asked);
      return Err(pieces.error);
    }
    PartDone(counter.afford, goal, asked, part, rest, pieces, counter.asked);
    if !NonEmpty(unit) { assert t[unit.contentStart..unit.contentEnd] == []; }
    if pieces.value <= maxPieces {
      var segment := Segment(unit, pieces.value);
      assert counter.asked + [] == counter.asked;
      r := PushSegment(result, segment);
      if r.Ok? {
        BuiltAppend(t, tokenize, maxPieces, result, from, segment);
        PiecesAppend(t, tokenize, maxPieces, unit, result, result, segment);
      }
    } else {
      r := SplitOversizeUnit(unit, maxPieces, counter, result, from);
    }
  }

  /** The first `n` units are segmented. */
  ghost predicate UnitsBuilt(t: Text, tokenize: Tokenizer, maxPieces: nat, units: seq<Span>, n: nat, result: seq<Segment>) {
    && n <= |units|
    && if n == 0 then result == []
       else Built(t, tokenize, maxPieces, result, KeptFrom(tokenize, maxPieces, units), units[n - 1].separatorEnd)
  }

  /** A unit follows its predecessor; only the first may be empty. */
  ghost predicate UnitAt(t: Text, units: seq<Span>, n: nat)
    requires n < |units|
  {
    && SpanOk(t, units[n]) && units[n].contentStart < units[n].separatorEnd && (n > 0 ==> NonEmpty(units[n]))
    && units[n].contentStart == if n == 0 then 0 else units[n - 1].separatorEnd
  }

  ghost predicate UnitsInOrder(t: Text, units: seq<Span>) {
    forall n: nat {:trigger UnitAt(t, units, n)} :: n < |units| ==> UnitAt(t, units, n)
  }

  lemma UnitsFollow(t: Text, units: seq<Span>)
    requires UnitsTo(t, units, |t|)
    ensures UnitsInOrder(t, units)
  {
    forall n: nat | n < |units| ensures UnitAt(t, units, n) {
      TilesAdjacent(units, 0, |t|, n);
    }
  }

  lemma UnitReady(t: Text, tokenize: Tokenizer, maxPieces: nat, units: seq<Span>, n: nat, result: seq<Segment>)
    requires n < |units| && UnitAt(t, units, n) && UnitsBuilt(t, tokenize, maxPieces, units, n, result)
    ensures SpanOk(t, units[n]) && Ready(t, tokenize, maxPieces, units[n], result, KeptFrom(tokenize, maxPieces, units))
  {
  }

  /** The first `n` units are segmented, each into segments of its own sentence. */
  ghost predicate Progress(t: Text, tokenize: Tokenizer, maxPieces: nat, units: seq<Span>, periodEnds: PeriodRule, end: nat, n: nat,
                           result: seq<Segment>) {
    && UnitsBuilt(t, tokenize, maxPieces, units, n, result)
    && AllOfOne(t, tokenize, maxPieces, periodEnds, end, result)
  }

  lemma ProgressMade(t: Text, tokenize: Tokenizer, maxPieces: nat, units: seq<Span>, periodEnds: PeriodRule, end: nat, n: nat,
                     before: seq<Segment>, after: seq<Segment>)
    requires n < |units| && Progress(t, tokenize, maxPieces, units, periodEnds, end, n, before) && AllOne(t, periodEnds, units, end)
    requires Pieces(t, tokenize, maxPieces, units[n], before, after)
    requires Fits(tokenize, t, units[n].contentStart, units[n].contentEnd, maxPieces) ==>
               |after| == |before| + 1 && after[|before|].span == units[n]
    requires Built(t, tokenize, maxPieces, after, KeptFrom(tokenize, maxPieces, units), units[n].separatorEnd)
    ensures Progress(t, tokenize, maxPieces, units, periodEnds, end, n + 1, after)
  {
    assert OneSentence(t, periodEnds, units[n], end);
    UnitSegments(t, tokenize, maxPieces, periodEnds, end, units[n], before, after);
  }

  /** The `n`-th unit, on the way to `goal`. */
  method SegmentOne(units: seq<Span>, n: nat, maxPieces: nat, counter: PieceCounter, result: seq<Segment>, ghost from: nat,
                    ghost goal: Traced<seq<Segment>>)
    returns (r: Result<seq<Segment>, Error>)
    requires counter.Valid() && Valid(counter.text) && n < |units| && SpanOk(counter.text, units[n])
    requires Ready(counter.text, counter.tokenize, maxPieces, units[n], result, from)
    requires goal == Behind(counter.asked, UnitsFrom(counter.text, counter.tokenize, maxPieces, units, n, result))
    modifies counter
    ensures r.Err? ==> Explained(counter.text, counter.tokenize, maxPieces, r.error) && Outcome(counter.afford, goal, r, counter.asked)
    ensures r.Ok? ==> counter.Valid() && Built(counter.text, counter.tokenize, maxPieces, r.value, from, units[n].separatorEnd)
    ensures r.Ok? ==> Pieces(counter.text, counter.tokenize, maxPieces, units[n], result, r.value)
    ensures r.Ok? && Fits(counter.tokenize, counter.text, units[n].contentStart, units[n].contentEnd, maxPieces) ==>
              |r.value| == |result| + 1 && r.value[|result|].span == units[n]
    ensures r.Ok? ==> goal == Behind(counter.asked, UnitsFrom(counter.text, counter.tokenize, maxPieces, units, n + 1, r.value))
  {
    ghost var t, tokenize, asked := counter.text, counter.tokenize, counter.asked;
    ghost var part := UnitFrom(t, tokenize, maxPieces, units[n], result);
    ghost var rest := if part.value.Err? then Traced(Err(part.value.error), [])
                      else UnitsFrom(t, tokenize, maxPieces, units, n + 1, part.value.value);
    r := SegmentUnit(units[n], maxPieces, counter, result, from);
    if r.Err? {
      PartFails(counter, goal, asked, part, rest, r, counter.asked);
    } else {
      PartDone(counter.afford, goal, asked, part, rest, r, counter.asked);
    }
  }

  method SegmentNext(units: seq<Span>, n: nat, maxPieces: nat, counter: PieceCounter, result: seq<Segment>,
                     ghost periodEnds: PeriodRule, ghost end: nat, ghost goal: Traced<seq<Segment>>)
    returns (r: Result<seq<Segment>, Error>, next: nat)
    requires counter.Valid() && Valid(counter.text) && n < |units| && UnitAt(counter.text, units, n)
    requires AllOne(counter.text, periodEnds, units, end)
    requires Progress(counter.text, counter.tokenize, maxPieces, units, periodEnds, end, n, result)
    requires goal == Behind(counter.asked, UnitsFrom(counter.text, counter.tokenize, maxPieces, units, n, result))
    modifies counter
    ensures r.Err? ==> Explained(counter.text, counter.tokenize, maxPieces, r.error) && Outcome(counter.afford, goal, r, counter.asked)
    ensures r.Ok? ==> counter.Valid() && Progress(counter.text, counter.tokenize, maxPieces, units, periodEnds, end, next, r.value)
    ensures r.Ok? ==> goal == Behind(counter.asked, UnitsFrom(counter.text, counter.tokenize, maxPieces, units, next, r.value))
    ensures next == n + 1
  {
    next := n + 1;
    UnitReady(counter.text, counter.tokenize, maxPieces, units, n, result);
    r := SegmentOne(units, n, maxPieces, counter, result, KeptFrom(counter.tokenize, maxPieces, units), goal);
    if r.Ok? {
      ProgressMade(counter.text, counter.tokenize, maxPieces, units, periodEnds, end, n, result, r.value);
    }
  }

  method SegmentUnits(units: seq<Span>, maxPieces: nat, counter: PieceCounter, ghost periodEnds: PeriodRule, ghost end: nat)
    returns (r: Result<seq<Segment>, Error>)
    requires counter.Valid() && Valid(counter.text) && AllOne(counter.text, periodEnds, units, end)
    requires UnitsInOrder(counter.text, units)
    modifies counter
    ensures r.Err? ==> Explained(counter.text, counter.tokenize, maxPieces, r.error)
    ensures r.Ok? ==> Progress(counter.text, counter.tokenize, maxPieces, units, periodEnds, end, |units|, r.value)
    ensures Outcome(counter.afford, Behind(old(counter.asked), UnitsFrom(counter.text, counter.tokenize, maxPieces, units, 0, [])), r, counter.asked)
  {
    var n: nat := 0;
    r := Ok([]);
    ghost var goal := Behind(counter.asked, UnitsFrom(counter.text, counter.tokenize, maxPieces, units, 0, []));
    while n < |units|
      invariant n <= |units| && counter.Valid()
      invariant r.Ok? && Progress(counter.text, counter.tokenize, maxPieces, units, periodEnds, end, n, r.value)
      invariant goal == Behind(counter.asked, UnitsFrom(counter.text, counter.tokenize, maxPieces, units, n, r.value))
      decreases |units| - n
    {
      assert UnitAt(counter.text, units, n);
      r, n := SegmentNext(units, n, maxPieces, counter, r.value, periodEnds, end, goal);
      if r.Err? { return; }
    }
    assert counter.asked + [] == counter.asked;
  }

  /** What the segments cover, and when that is everything. */
  ghost predicate Segmentation(t: Text, tokenize: Tokenizer, maxPieces: nat, segments: seq<Segment>) {
    && SegmentsOk(t, tokenize, maxPieces, segments)
    && (exists from: nat :: AllWhite(t, 0, from) && Tiles(Spans(segments), from, |t|))
    && (Lossless(t, segments) <==> !Drops(t, tokenize, maxPieces))
  }

  lemma UnitsGiveSegmentation(t: Text, tokenize: Tokenizer, maxPieces: nat, units: seq<Span>, segments: seq<Segment>, contentEnd: nat)
    requires Valid(t) && Trimmed(t, contentEnd) && contentEnd > 0 && units != [] && UnitsTo(t, units, |t|)
    requires UnitsBuilt(t, tokenize, maxPieces, units, |units|, segments)
    ensures Segmentation(t, tokenize, maxPieces, segments)
  {
    var from := KeptFrom(tokenize, maxPieces, units);
    TilesAdjacent(units, 0, |t|, 0);
    TilesAdjacent(units, 0, |t|, |units| - 1);
    assert SpanOk(t, units[0]);
    assert AllWhite(t, 0, from);
    if Lossless(t, segments) { TilesStart(Spans(segments), 0, from, |t|); }
    assert !AllWhite(t, 0, |t|);
  }

  lemma NoUnitsGiveSegmentation(t: Text, tokenize: Tokenizer, maxPieces: nat)
    requires Valid(t) && Trimmed(t, 0) && EmptyOverflows(tokenize, maxPieces)
    ensures Segmentation(t, tokenize, maxPieces, [])
  {
    assert Tiles(Spans([]), |t|, |t|) && AllWhite(t, 0, |t|);
  }

  lemma OneSegmentation(t: Text, tokenize: Tokenizer, maxPieces: nat, units: seq<Span>, contentEnd: nat, pieces: nat)
    requires Valid(t) && Trimmed(t, contentEnd) && |units| <= 1
    requires contentEnd == 0 ==> units == []
    requires contentEnd > 0 ==> units != [] && UnitsTo(t, units, |t|) && units[0].contentEnd == contentEnd
    requires Counted(tokenize, t, 0, contentEnd, pieces) && pieces <= maxPieces
    ensures Segmentation(t, tokenize, maxPieces, [Segment(Span(0, contentEnd, contentEnd, |t|), pieces)])
  {
    var segment := Segment(Span(0, contentEnd, contentEnd, |t|), pieces);
    if contentEnd > 0 {
      TilesAdjacent(units, 0, |t|, 0);
      assert SpanOk(t, units[0]) && NonEmpty(units[0]);
      assert !AllWhite(t, 0, |t|);
    } else {
      assert t[0..0] == [];
    }
    assert SegmentOk(t, tokenize, maxPieces, segment);
    assert Spans([segment]) == [] + [segment.span];
    TilesAppend([], 0, segment.span);
    assert AllWhite(t, 0, 0);
  }

  /** A text of at most one unit is its own segment. */
  lemma WholeIsOneSentence(t: Text, tokenize: Tokenizer, maxPieces: nat, periodEnds: PeriodRule, units: seq<Span>, contentEnd: nat, s: Segment)
    requires AllOne(t, periodEnds, units, contentEnd) && |units| <= 1
    requires contentEnd == 0 ==> units == []
    requires contentEnd > 0 ==> units != [] && Tiles(units, 0, |t|) && units[0].contentEnd == contentEnd
    requires s.span == Span(0, contentEnd, contentEnd, |t|)
    ensures AllOfOne(t, tokenize, maxPieces, periodEnds, contentEnd, [s])
  {
    if contentEnd > 0 {
      TilesAdjacent(units, 0, |t|, 0);
      assert units[0] == s.span;
    }
    assert OneSentence(t, periodEnds, s.span, contentEnd);
  }

  /** The segments of a text and what is asked of the tokenizer for them. The work limits play no part in what they are. */
  ghost function Segmented(t: Text, tokenize: Tokenizer, maxPieces: nat, periodEnds: PeriodRule): Traced<seq<Segment>> {
    var contentEnd := TrimEnd(t, |t|);
    var units := UnitsOf(t, contentEnd, periodEnds);
    var pieces := PiecesAt(t, tokenize, 0, contentEnd);
    Behind([(0, contentEnd)],
           if pieces <= maxPieces && |units| <= 1 then Traced(Ok([Segment(Span(0, contentEnd, contentEnd, |t|), pieces)]), [])
           else UnitsFrom(t, tokenize, maxPieces, units, 0, []))
  }

  /** The text can be segmented: it is short enough, what must be asked for is affordable, and no scalar and no count is too large. */
  ghost predicate Segmentable(t: Text, tokenize: Tokenizer, maxPieces: nat, periodEnds: PeriodRule) {
    && maxPieces > 0 && |t| <= MAX_SEGMENTER_INPUT_BYTES
    && Affordable(t, tokenize, Segmented(t, tokenize, maxPieces, periodEnds).asks) && Segmented(t, tokenize, maxPieces, periodEnds).value.Ok?
  }

  ghost function SegmentsOf(t: Text, tokenize: Tokenizer, maxPieces: nat, periodEnds: PeriodRule): Option<seq<Segment>> {
    if Segmentable(t, tokenize, maxPieces, periodEnds) then Some(Segmented(t, tokenize, maxPieces, periodEnds).value.value) else None
  }

  /** `segment_text`: lossless exactly when the text does not drop its leading whitespace. */
  method SegmentText(t: Text, maxPieces: nat, tokenize: Tokenizer, periodEnds: PeriodRule)
    returns (r: Result<seq<Segment>, Error>)
    requires Valid(t)
    ensures r.Ok? ==> Segmentation(t, tokenize, maxPieces, r.value)
    ensures r.Ok? ==> exists end: nat :: Trimmed(t, end) && AllOfOne(t, tokenize, maxPieces, periodEnds, end, r.value)
    ensures r.Err? ==> Explained(t, tokenize, maxPieces, r.error)
    ensures maxPieces == 0 ==> r == Err(ZeroPieceLimit)
    ensures maxPieces > 0 && |t| > MAX_SEGMENTER_INPUT_BYTES ==> r == Err(InputTooLarge)
    ensures SegmentsOf(t, tokenize, maxPieces, periodEnds) == if r.Ok? then Some(r.value) else None
  {
    if maxPieces == 0 { return Err(ZeroPieceLimit); }
    if |t| > MAX_SEGMENTER_INPUT_BYTES { return Err(InputTooLarge); }
    var contentEnd := TrimTrailing(t, |t|);
    var counter := new PieceCounter(t, tokenize);
    ghost var goal := Segmented(t, tokenize, maxPieces, periodEnds);
    r := SegmentContent(t, maxPieces, tokenize, periodEnds, contentEnd, counter, goal);
    assert counter.afford(goal.asks) <==> Affordable(t, tokenize, goal.asks);
  }

  /** The text without its trailing whitespace, which is the last separator. */
  method SegmentContent(t: Text, maxPieces: nat, tokenize: Tokenizer, periodEnds: PeriodRule, contentEnd: nat, counter: PieceCounter,
                        ghost goal: Traced<seq<Segment>>)
    returns (r: Result<seq<Segment>, Error>)
    requires Valid(t) && counter.Valid() && counter.text == t && counter.tokenize == tokenize && counter.asked == []
    requires Trimmed(t, contentEnd) && contentEnd == TrimEnd(t, |t|) && goal == Segmented(t, tokenize, maxPieces, periodEnds)
    modifies counter
    ensures r.Ok? ==> Segmentation(t, tokenize, maxPieces, r.value) && AllOfOne(t, tokenize, maxPieces, periodEnds, contentEnd, r.value)
    ensures r.Err? ==> Explained(t, tokenize, maxPieces, r.error)
    ensures Outcome(counter.afford, goal, r, counter.asked)
  {
    ghost var units' := UnitsOf(t, contentEnd, periodEnds);
    ghost var part := CountOf(t, tokenize, 0, contentEnd);
    ghost var rest := if part.value.value <= maxPieces && |units'| <= 1
                      then Traced(Ok([Segment(Span(0, contentEnd, contentEnd, |t|), part.value.value)]), [])
                      else UnitsFrom(t, tokenize, maxPieces, units', 0, []);
    assert [] + goal.asks == goal.asks;
    var whole := counter.Count(0, contentEnd);
    if whole.Err? {
      PartFails(counter, goal, [], part, rest, whole, counter.asked);
      return Err(whole.error);
    }
    PartDone(counter.afford, goal, [], part, rest, whole, counter.asked);
    assert counter.asked + [] == counter.asked;
    var units := SentenceUnits(t, contentEnd, periodEnds);
    if whole.value <= maxPieces && |units| <= 1 {
      var segment := Segment(Span(0, contentEnd, contentEnd, |t|), whole.value);
      OneSegmentation(t, tokenize, maxPieces, units, contentEnd, whole.value);
      WholeIsOneSentence(t, tokenize, maxPieces, periodEnds, units, contentEnd, segment);
      return Ok([segment]);
    }
    if units == [] {
      assert t[0..0] == [];
      NoUnitsGiveSegmentation(t, tokenize, maxPieces);
      assert AllOfOne(t, tokenize, maxPieces, periodEnds, contentEnd, []);
      return Ok([]);
    }
    UnitsFollow(t, units);
    r := SegmentUnits(units, maxPieces, counter, periodEnds, contentEnd);
    if r.Ok? { UnitsGiveSegmentation(t, tokenize, maxPieces, units, r.value, contentEnd); }
  }

  /** Every sentence of the text stays within this many pieces. */
  ghost predicate SentencesFit(t: Text, tokenize: Tokenizer, maxPieces: nat, periodEnds: PeriodRule) {
    var contentEnd := TrimEnd(t, |t|);
    var units := UnitsOf(t, contentEnd, periodEnds);
    && (forall k {:trigger units[k]} :: 0 <= k < |units| ==> PiecesAt(t, tokenize, units[k].contentStart, units[k].contentEnd) <= maxPieces)
    && (|units| <= 1 ==> PiecesAt(t, tokenize, 0, contentEnd) <= maxPieces)
  }

  lemma {:induction false} UnitsFitBoth(t: Text, tokenize: Tokenizer, small: nat, large: nat, units: seq<Span>, n: nat, result: seq<Segment>)
    requires small <= large
    requires forall k {:trigger units[k]} :: 0 <= k < |units| ==> PiecesAt(t, tokenize, units[k].contentStart, units[k].contentEnd) <= small
    ensures UnitsFrom(t, tokenize, small, units, n, result) == UnitsFrom(t, tokenize, large, units, n, result)
    decreases |units| - n
  {
    if n < |units| {
      var unit := UnitFrom(t, tokenize, small, units[n], result);
      if unit.value.Ok? { UnitsFitBoth(t, tokenize, small, large, units, n + 1, unit.value.value); }
    }
  }

  /** Where every sentence fits the smaller of two limits, both give the same segments. */
  lemma SameSegments(t: Text, tokenize: Tokenizer, small: nat, large: nat, periodEnds: PeriodRule)
    requires 0 < small <= large && SentencesFit(t, tokenize, small, periodEnds)
    ensures SegmentsOf(t, tokenize, small, periodEnds) == SegmentsOf(t, tokenize, large, periodEnds)
  {
    UnitsFitBoth(t, tokenize, small, large, UnitsOf(t, TrimEnd(t, |t|), periodEnds), 0, []);
  }

  /** A tokenizer that answers for every range within the average, and for every scalar within the limit. */
  ghost predicate Tame(t: Text, tokenize: Tokenizer, maxPieces: nat) {
    && (forall a: nat, b: nat {:trigger t[a..b]} :: a <= b <= |t| ==> tokenize(t[a..b]).Ok?)
    && !HasLargeRange(t, tokenize)
    && (forall a: nat {:trigger Next(t, a)} :: a < |t| && Next(t, a) <= |t| && tokenize(t[a..Next(t, a)]).Ok? ==>
          tokenize(t[a..Next(t, a)]).value <= maxPieces)
  }

  /** For a short text and a tame tokenizer no error can be explained: `segment_text` succeeds. */
  lemma ShortTextsSucceed(t: Text, tokenize: Tokenizer, maxPieces: nat, e: Error)
    requires maxPieces > 0 && |t| <= SHORT_TEXT && Tame(t, tokenize, maxPieces)
    ensures !Explained(t, tokenize, maxPieces, e)
  {
    if e.Encoding? && e.start <= e.end <= |t| { assert tokenize(t[e.start..e.end]).Ok?; }
  }

  const ONE_SPACE: Text := [0x20]

  lemma SpaceIsTrimmed(periodEnds: PeriodRule)
    ensures White(ONE_SPACE, 0) && TrimEnd(ONE_SPACE, 1) == 0 && UnitsOf(ONE_SPACE, 0, periodEnds) == []
  {
    assert Floor(ONE_SPACE, 0, 0) == 0;
    assert Scanned(ONE_SPACE, 0, periodEnds, Scan([], 0, 0)) == Scan([], 0, 0);
  }

  lemma SpaceIsAffordable(tokenize: Tokenizer)
    requires tokenize([]) == Ok(2)
    ensures PiecesAt(ONE_SPACE, tokenize, 0, 0) == 2 && Affordable(ONE_SPACE, tokenize, [(0, 0)])
  {
    assert ONE_SPACE[0..0] == [];
    forall cost: Ask -> nat ensures Spent(cost, [(0, 0)]) == cost((0, 0)) { SpentOnce(cost, [], (0, 0)); assert [] + [(0, 0)] == [(0, 0)]; }
  }

  /** Text can be lost: one space, when the empty text already has two pieces and one is allowed, is cut into nothing. */
  lemma WhitespaceCanBeLost(tokenize: Tokenizer, periodEnds: PeriodRule)
    requires tokenize([]) == Ok(2)
    ensures Valid(ONE_SPACE) && Drops(ONE_SPACE, tokenize, 1)
    ensures SegmentsOf(ONE_SPACE, tokenize, 1, periodEnds) == Some([]) && !Lossless(ONE_SPACE, [])
    ensures forall segments :: Segmentation(ONE_SPACE, tokenize, 1, segments) ==> !Lossless(ONE_SPACE, segments)
  {
    SpaceIsTrimmed(periodEnds);
    SpaceIsAffordable(tokenize);
    assert Segmented(ONE_SPACE, tokenize, 1, periodEnds) == Traced(Ok([]), [(0, 0)]);
  }
}
