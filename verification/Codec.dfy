/**
 Reading sequences of items from bytes. A step sees the items already read, so later items may depend on
 earlier ones; reading and writing are inverse whenever each step and its writer are.
 */
module Codec {
  import opened Base
  import opened Bytes

  type Input = seq<Byte>
  type Outcome<+T, +E> = Result<(T, Input), E>
  type Step<!T, !E> = (seq<T>, Input) -> Outcome<T, E>
  type Writer<!T> = (seq<T>, T) -> Input
  type Check<!T> = (seq<T>, T) -> bool

  /** Reads items until there are `n`. */
  function ReadFrom<T, E>(step: Step<T, E>, n: nat, done: seq<T>, bytes: Input): Outcome<seq<T>, E>
    decreases n - |done|
  {
    if |done| >= n then Ok((done, bytes))
    else
      var item := step(done, bytes);
      if item.Err? then Err(item.error) else ReadFrom(step, n, done + [item.value.0], item.value.1)
  }

  /** The items from position `k` on, written one after another. */
  function WriteFrom<T>(write: Writer<T>, items: seq<T>, k: nat): Input
    requires k <= |items|
    decreases |items| - k
  {
    if k == |items| then [] else write(items[..k], items[k]) + WriteFrom(write, items, k + 1)
  }

  ghost predicate AllOk<T(!new)>(ok: Check<T>, items: seq<T>, k: nat) {
    forall i :: k <= i < |items| ==> ok(items[..i], items[i])
  }

  /** The step undoes the writer. */
  ghost predicate Rereads<T(!new), E>(step: Step<T, E>, write: Writer<T>, ok: Check<T>, n: nat) {
    forall done, item, rest :: |done| < n && ok(done, item) ==> Undoes(step, write, done, item, rest)
  }

  /** The step undoes the writer, and the writer the step. */
  ghost predicate Inverse<T(!new), E>(step: Step<T, E>, write: Writer<T>, ok: Check<T>, n: nat) {
    && Rereads(step, write, ok, n)
    && (forall done, bytes :: |done| < n && step(done, bytes).Ok? ==> Accepts(step, write, ok, done, bytes))
  }

  ghost predicate Undoes<T, E>(step: Step<T, E>, write: Writer<T>, done: seq<T>, item: T, rest: Input) {
    step(done, write(done, item) + rest) == Ok((item, rest))
  }

  ghost predicate Accepts<T, E>(step: Step<T, E>, write: Writer<T>, ok: Check<T>, done: seq<T>, bytes: Input)
    requires step(done, bytes).Ok?
  {
    var (item, rest) := step(done, bytes).value;
    ok(done, item) && bytes == write(done, item) + rest
  }

  /** What was written is read back. */
  lemma {:induction false} ReadOfWritten<T(!new), E>(step: Step<T, E>, write: Writer<T>, ok: Check<T>, items: seq<T>, k: nat, rest: Input)
    requires Rereads(step, write, ok, |items|) && k <= |items| && AllOk(ok, items, k)
    ensures ReadFrom(step, |items|, items[..k], WriteFrom(write, items, k) + rest) == Ok((items, rest))
    decreases |items| - k
  {
    if k == |items| {
      assert items[..k] == items && [] + rest == rest;
    } else {
      var first, later := write(items[..k], items[k]), WriteFrom(write, items, k + 1) + rest;
      assert Undoes(step, write, items[..k], items[k], later);
      assert first + WriteFrom(write, items, k + 1) + rest == first + later;
      assert items[..k] + [items[k]] == items[..k + 1];
      ReadOfWritten(step, write, ok, items, k + 1, rest);
    }
  }

  /** What was read is what would be written. */
  lemma {:induction false} WrittenOfRead<T(!new), E>(step: Step<T, E>, write: Writer<T>, ok: Check<T>, n: nat, done: seq<T>, bytes: Input)
    requires Inverse(step, write, ok, n) && |done| <= n && ReadFrom(step, n, done, bytes).Ok?
    ensures var (items, rest) := ReadFrom(step, n, done, bytes).value;
            && |items| == n && items[..|done|] == done && AllOk(ok, items, |done|)
            && bytes == WriteFrom(write, items, |done|) + rest
    decreases n - |done|
  {
    var (items, rest) := ReadFrom(step, n, done, bytes).value;
    if |done| == n {
      assert [] + rest == rest;
    } else {
      var (item, later) := step(done, bytes).value;
      assert Accepts(step, write, ok, done, bytes);
      WrittenOfRead(step, write, ok, n, done + [item], later);
      assert items[..|done|] == items[..|done| + 1][..|done|] == done;
      assert items[|done|] == items[..|done| + 1][|done|] == item;
      var first := write(done, item);
      assert first + (WriteFrom(write, items, |done| + 1) + rest) == first + WriteFrom(write, items, |done| + 1) + rest;
    }
  }

  // ---------------------------------------------------------------------------------- sections of a file

  type Parser<!V, !E> = Input -> Result<V, E>

  /** Reads `n` items, then goes on with what follows them. */
  function Section<T, V, E>(step: Step<T, E>, n: nat, next: seq<T> -> Parser<V, E>): Parser<V, E> {
    (bytes: Input) =>
      var items := ReadFrom(step, n, [], bytes);
      if items.Err? then Err(items.error) else next(items.value.0)(items.value.1)
  }

  lemma SectionAccepts<T(!new), V, E>(step: Step<T, E>, write: Writer<T>, ok: Check<T>, items: seq<T>, next: seq<T> -> Parser<V, E>,
                                     rest: Input)
    requires Rereads(step, write, ok, |items|) && AllOk(ok, items, 0)
    ensures Section(step, |items|, next)(WriteFrom(write, items, 0) + rest) == next(items)(rest)
  {
    assert items[..0] == [];
    ReadOfWritten(step, write, ok, items, 0, rest);
  }

  /** Whatever the parser accepts is `tail` of its result, and the result is `good`. */
  ghost predicate Restores<V(!new), E(!new)>(parse: Parser<V, E>, tail: V -> Input, good: V -> bool) {
    forall bytes :: parse(bytes).Ok? ==> RestoresAt(parse, tail, good, bytes)
  }

  ghost predicate RestoresAt<V, E>(parse: Parser<V, E>, tail: V -> Input, good: V -> bool, bytes: Input)
    requires parse(bytes).Ok?
  {
    good(parse(bytes).value) && bytes == tail(parse(bytes).value)
  }

  /** A section that was read step by step, and what is left to do after it. */
  lemma SectionSteps<T, V, E>(step: Step<T, E>, n: nat, next: seq<T> -> Parser<V, E>, bytes: Input, read: Result<seq<T>, E>, rest: Input)
    requires var items := ReadFrom(step, n, [], bytes);
             if items.Err? then read == Err(items.error) else read == Ok(items.value.0) && rest == items.value.1
    ensures Section(step, n, next)(bytes) == if read.Err? then Err(read.error) else next(read.value)(rest)
    ensures read.Ok? ==> |read.value| == n
  {
    if read.Ok? { ReadLength(step, n, [], bytes); }
  }

  lemma {:induction false} ReadLength<T, E>(step: Step<T, E>, n: nat, done: seq<T>, bytes: Input)
    requires |done| <= n && ReadFrom(step, n, done, bytes).Ok?
    ensures |ReadFrom(step, n, done, bytes).value.0| == n
    decreases n - |done|
  {
    if |done| < n {
      var item := step(done, bytes).value;
      ReadLength(step, n, done + [item.0], item.1);
    }
  }

  lemma RestoresHere<V(!new), E(!new)>(parse: Parser<V, E>, tail: V -> Input, good: V -> bool, bytes: Input, v: V)
    requires Restores(parse, tail, good) && parse(bytes) == Ok(v)
    ensures good(v) && bytes == tail(v)
  {
    assert RestoresAt(parse, tail, good, bytes);
  }

  /** From what follows a section to the section itself. */
  lemma SectionRestores<T(!new), V(!new), E(!new)>(step: Step<T, E>, write: Writer<T>, ok: Check<T>, n: nat, next: seq<T> -> Parser<V, E>,
                                                  tail: V -> Input, good: seq<T> -> V -> bool, tail': V -> Input, good': V -> bool)
    requires Inverse(step, write, ok, n)
    requires forall items :: |items| == n && AllOk(ok, items, 0) ==> Restores(next(items), tail, good(items))
    requires forall items, v :: |items| == n && AllOk(ok, items, 0) && good(items)(v) ==>
               good'(v) && tail'(v) == WriteFrom(write, items, 0) + tail(v)
    ensures Restores(Section(step, n, next), tail', good')
  {
    var parse := Section(step, n, next);
    forall bytes | parse(bytes).Ok? ensures RestoresAt(parse, tail', good', bytes) {
      WrittenOfRead(step, write, ok, n, [], bytes);
      var (items, rest) := ReadFrom(step, n, [], bytes).value;
      assert RestoresAt(next(items), tail, good(items), rest);
    }
  }

  // ---------------------------------------------------------------------------------- single fields

  function Take(bytes: Input, n: nat): Option<(Input, Input)> {
    if n <= |bytes| then Some((bytes[..n], bytes[n..])) else None
  }

  /** A little-endian integer of `width` bytes. */
  function Number(bytes: Input, width: nat): Option<(nat, Input)> {
    if width <= |bytes| then Some((UnLe(bytes[..width]), bytes[width..])) else None
  }

  lemma TakeWritten(first: Input, rest: Input)
    ensures Take(first + rest, |first|) == Some((first, rest))
  {
  }

  lemma TakeSplits(bytes: Input, n: nat)
    requires n <= |bytes|
    ensures bytes == bytes[..n] + bytes[n..]
  {
  }

  lemma NumberWritten(value: nat, width: nat, rest: Input)
    requires value < Pow256(width)
    ensures Number(Le(value, width) + rest, width) == Some((value, rest))
  {
    UnLeOfLe(value, width);
    assert (Le(value, width) + rest)[..width] == Le(value, width);
  }

  lemma Rewritten(first: Input)
    ensures first == Le(UnLe(first), |first|) && UnLe(first) < Pow256(|first|)
  {
    LeOfUnLe(first);
  }

  lemma NumberSplits(bytes: Input, width: nat)
    requires width <= |bytes|
    ensures bytes == Le(UnLe(bytes[..width]), width) + bytes[width..] && UnLe(bytes[..width]) < Pow256(width)
  {
    Rewritten(bytes[..width]);
    TakeSplits(bytes, width);
  }

  function Zeros(n: nat): (zeros: Input)
    ensures |zeros| == n && forall i :: 0 <= i < n ==> zeros[i] == 0
  {
    seq(n, _ => 0)
  }

  predicate AllZero(bytes: Input) {
    forall i :: 0 <= i < |bytes| ==> bytes[i] == 0
  }

  // ---------------------------------------------------------------------------------- the cursor over a buffer

  /** A read that agrees with the reading function, and leaves what the function leaves. */
  ghost predicate Follows<T, E>(expected: Outcome<T, E>, r: Result<T, E>, rest: Input) {
    if expected.Err? then r == Err(expected.error) else r == Ok(expected.value.0) && rest == expected.value.1
  }

  /** A buffer and how far it has been read. */
  class Reader {
    const bytes: Input
    var position: nat

    ghost predicate Valid()
      reads this
    {
      position <= |bytes|
    }

    function Rest(): Input
      requires Valid()
      reads this
    {
      bytes[position..]
    }

    constructor (bytes: Input)
      ensures Valid() && this.bytes == bytes && position == 0 && Rest() == bytes
    {
      this.bytes, position := bytes, 0;
    }

    /** Takes `n` bytes, or nothing if fewer remain. */
    method TakeBytes(n: nat) returns (r: Option<Input>)
      requires Valid()
      modifies this
      ensures Valid()
      ensures var taken := Take(old(Rest()), n);
              if taken.None? then r.None? && position == old(position)
              else r == Some(taken.value.0) && Rest() == taken.value.1 && position == old(position) + n
    {
      if n > |bytes| - position { return None; }
      assert bytes[position..][..n] == bytes[position..position + n];
      r := Some(bytes[position..position + n]);
      position := position + n;
    }

    method ReadNumber(width: nat) returns (r: Option<nat>)
      requires Valid()
      modifies this
      ensures Valid()
      ensures var read := Number(old(Rest()), width);
              if read.None? then r.None? && position == old(position)
              else r == Some(read.value.0) && Rest() == read.value.1 && position == old(position) + width
    {
      var taken := TakeBytes(width);
      if taken.None? { return None; }
      return Some(UnLe(taken.value));
    }
  }
}
