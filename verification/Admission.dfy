/** What goes into one batch and one worker: length buckets (`types.rs`) and the capacities of a pool (`scheduler.rs`). */
module Admission {
  import opened Base
  import opened Sums
  import opened Wakeups
  import Scheduler

  // ---------------------------------------------------------------------------------- length buckets

  /** Doubles `power` until it reaches `n`. */
  function Doubled(n: nat, power: nat): (result: nat)
    requires power > 0
    ensures result >= n && result >= power
    decreases n - power
  {
    if power >= n then power else Doubled(n, 2 * power)
  }

  /** The power-of-two length bucket of a text with this many characters. */
  function Bucket(characters: nat): nat {
    Doubled(Max(characters, 1), 1)
  }

  ghost function Power(k: nat): nat {
    if k == 0 then 1 else 2 * Power(k - 1)
  }

  lemma {:induction false} DoubledIsLeast(n: nat, k: nat) returns (j: nat)
    requires Power(k) > 0 && (k > 0 ==> Power(k - 1) < n)
    ensures j >= k && Doubled(n, Power(k)) == Power(j) && (j > 0 ==> Power(j - 1) < n)
    decreases n - Power(k)
  {
    if Power(k) >= n { j := k; } else { j := DoubledIsLeast(n, k + 1); }
  }

  lemma {:induction false} PowerGrows(i: nat, j: nat)
    requires i <= j
    ensures 0 < Power(i) <= Power(j)
  {
    if i < j { PowerGrows(i, j - 1); } else if i > 0 { PowerGrows(i - 1, i - 1); }
  }

  /** The bucket is the least power of two that holds the text. */
  lemma BucketIsLeastPower(characters: nat) returns (j: nat)
    ensures Bucket(characters) == Power(j) && Max(characters, 1) <= Power(j)
    ensures forall i: nat :: Max(characters, 1) <= Power(i) ==> Power(j) <= Power(i)
  {
    j := DoubledIsLeast(Max(characters, 1), 0);
    forall i: nat | Max(characters, 1) <= Power(i) ensures Power(j) <= Power(i) {
      if i < j { PowerGrows(i, j - 1); } else { PowerGrows(j, i); }
    }
  }

  /** Texts of one bucket differ in length by less than a factor of two. */
  lemma OneBucketIsNarrow(a: nat, b: nat)
    requires Bucket(a) == Bucket(b)
    ensures Max(a, 1) < 2 * Max(b, 1)
  {
    var j := DoubledIsLeast(Max(b, 1), 0);
    if j > 0 { PowerGrows(j - 1, j - 1); }
  }

  lemma TimesAtMost(n: nat, x: nat, y: nat)
    requires x <= y
    ensures n * x <= n * y
  {
  }

  /** Padding every row of a batch to any of its texts stays within the configured size, or within one row's bucket. */
  lemma PaddedBatchIsBounded(config: Scheduler.Config, batch: seq<Command>, characters: nat)
    requires config.Valid() && Scheduler.OneKey(config, batch) && Bucket(characters) == batch[0].key.bucket
    ensures |batch| * characters <= Max(config.maxPaddedSourceChars, Bucket(characters))
  {
    Scheduler.BatchIsBounded(config, batch);
    TimesAtMost(|batch|, characters, Bucket(characters));
  }

  // ---------------------------------------------------------------------------------- pool capacities

  /** The queue capacity of worker `i` of `count`. */
  function Share(capacity: nat, count: nat, i: nat): nat
    requires count > 0
  {
    capacity / count + if i < capacity % count then 1 else 0
  }

  ghost function Given(capacity: nat, count: nat, n: nat): nat
    requires count > 0
  {
    if n == 0 then 0 else Given(capacity, count, n - 1) + Share(capacity, count, n - 1)
  }

  lemma {:induction false} GivenClosed(capacity: nat, count: nat, n: nat)
    requires 0 < count && n <= count
    ensures Given(capacity, count, n) == n * (capacity / count) + Min(n, capacity % count)
  {
    if n > 0 {
      GivenClosed(capacity, count, n - 1);
      assert n * (capacity / count) == (n - 1) * (capacity / count) + capacity / count;
    }
  }

  /** The workers share the whole capacity, every worker gets a queue, and no two differ by more than one slot. */
  lemma SharesTileCapacity(capacity: nat, count: nat, i: nat, j: nat)
    requires 0 < count <= capacity && i < count && j < count
    ensures Given(capacity, count, count) == capacity
    ensures Share(capacity, count, i) >= 1 && Share(capacity, count, i) <= Share(capacity, count, j) + 1
  {
    GivenClosed(capacity, count, count);
    assert capacity / count >= 1;
  }
}
