/**
 The lexical shortlist (`crates/marian-model/src/shortlist.rs`): the table that a byte payload describes,
 and the candidate tokens it admits for one sentence.
 */
module Shortlist {
  import opened Base
  import opened Bytes
  import opened Distinct
  import opened Layout

  const MAGIC: nat := 17_373_278_592_220_534_773
  const MAX_TARGET_ENTRIES: nat := 4_000_000
  const HEADER_BYTES: nat := 48

  datatype Error = SourceVocabularyTooLarge | TooManyBytes | TruncatedHeader | UnsupportedFormat | WrongLength
                 | InvalidOffsets | TargetOutOfVocabulary | NegativeToken | TokenOutOfVocabulary | NoCandidates | NoEos

  /** `offsets == []` stands for "no table": every target is listed. */
  datatype Table = Table(sourceVocab: nat, targetVocab: nat, firstNum: nat, offsets: seq<nat>, targets: seq<nat>) {
    /** What `from_bytes` establishes and `candidates` relies on. */
    ghost predicate Valid() {
      if offsets == [] then firstNum == 0 && targets == []
      else
        && |offsets| == sourceVocab + 1
        && firstNum <= targetVocab
        && offsets[0] == 0 && offsets[sourceVocab] == |targets|
        && (forall i, j :: 0 <= i <= j < |offsets| ==> offsets[i] <= offsets[j])
        && (forall j :: 0 <= j < |targets| ==> targets[j] < targetVocab)
    }
  }

  // ---------------------------------------------------------------------------------- candidates

  predicate TokensInVocabulary(t: Table, tokens: seq<int>) {
    t.offsets == [] || forall k :: 0 <= k < |tokens| ==> 0 <= tokens[k] < t.sourceVocab
  }

  /** Some source token lists the target. */
  ghost predicate ListedFor(t: Table, tokens: seq<int>, id: nat)
    requires t.Valid() && TokensInVocabulary(t, tokens)
  {
    t.offsets == [] || id < t.firstNum
    || exists k, j :: 0 <= k < |tokens| && t.offsets[tokens[k]] <= j < t.offsets[tokens[k] + 1] && t.targets[j] == id
  }

  /** UNK and the byte and control fallbacks. */
  predicate Masked(id: nat) {
    id == 1 || 7 <= id < 39
  }

  ghost predicate Selected(t: Table, tokens: seq<int>, id: nat)
    requires t.Valid() && TokensInVocabulary(t, tokens)
  {
    id < t.targetVocab && ListedFor(t, tokens, id) && !Masked(id)
  }

  /** The members of `present[from..]`, ascending. */
  function Members(present: seq<bool>, from: nat): (ids: seq<nat>)
    requires from <= |present|
    ensures forall i :: 0 <= i < |ids| ==> from <= ids[i] < |present| && present[ids[i]]
    ensures forall i, j :: 0 <= i < j < |ids| ==> ids[i] < ids[j]
    ensures forall id :: from <= id < |present| && present[id] ==> id in ids
    decreases |present| - from
  {
    if from == |present| then []
    else if present[from] then [from] + Members(present, from + 1)
    else Members(present, from + 1)
  }

  /** The `need` smallest absent ids from `from` on, or all there are. */
  function Padding(present: seq<bool>, from: nat, need: nat): (ids: seq<nat>)
    ensures |ids| <= need
    ensures forall i :: 0 <= i < |ids| ==> from <= ids[i] < |present| && !present[ids[i]]
    ensures forall i, j :: 0 <= i < j < |ids| ==> ids[i] < ids[j]
    ensures |ids| < need ==> forall id :: from <= id < |present| && !present[id] ==> id in ids
    decreases |present| - from
  {
    if need == 0 || from >= |present| then []
    else if present[from] then Padding(present, from + 1, need)
    else [from] + Padding(present, from + 1, need - 1)
  }

  /** The padding takes the smallest absent ids: nothing absent lies between them. */
  lemma {:induction false} PaddingSmallest(present: seq<bool>, from: nat, need: nat, id: nat, i: nat)
    requires from <= id < |present| && !present[id]
    requires i < |Padding(present, from, need)| && id < Padding(present, from, need)[i]
    ensures id in Padding(present, from, need)
    decreases |present| - from
  {
    if need > 0 && from < |present| {
      if present[from] {
        PaddingSmallest(present, from + 1, need, id, i);
      } else if id != from {
        if i > 0 { PaddingSmallest(present, from + 1, need - 1, id, i - 1); }
      }
    }
  }

  function Missing(size: nat): nat {
    if size % 8 == 0 then 0 else 8 - size % 8
  }

  function Present(ids: seq<nat>, bound: nat): (present: seq<bool>)
    ensures |present| == bound && forall id :: 0 <= id < bound ==> (present[id] <==> id in ids)
  {
    seq(bound, id => id in ids)
  }

  /** `sort_unstable` on ids below `bound` without repetition. */
  function Sorted(ids: seq<nat>, bound: nat): seq<nat> {
    Members(Present(ids, bound), 0)
  }

  ghost function PresentFor(t: Table, tokens: seq<int>): (present: seq<bool>)
    requires t.Valid() && TokensInVocabulary(t, tokens)
    ensures |present| == t.targetVocab
  {
    seq(t.targetVocab, id requires 0 <= id < t.targetVocab => Selected(t, tokens, id))
  }

  function Padded(present: seq<bool>): seq<nat> {
    var chosen := Members(present, 0);
    chosen + Padding(present, 50, Missing(|chosen|))
  }

  function Finish(present: seq<bool>): Result<seq<nat>, Error> {
    var ids := Sorted(Padded(present), |present|);
    if ids == [] then Err(NoCandidates)
    else if ids[0] != 0 then Err(NoEos)
    else Ok(ids)
  }

  /** What `candidates` returns, as a function of the table and the sentence alone. */
  ghost function CandidatesOf(t: Table, tokens: seq<int>): (r: Result<seq<nat>, Error>)
    requires t.Valid()
  {
    if TokensInVocabulary(t, tokens) then Finish(PresentFor(t, tokens))
    else if FirstBadIsNegative(t, tokens) then Err(NegativeToken)
    else Err(TokenOutOfVocabulary)
  }

  predicate FirstBadIsNegative(t: Table, tokens: seq<int>) {
    tokens != [] && (tokens[0] < 0 || (tokens[0] < t.sourceVocab && FirstBadIsNegative(t, tokens[1..])))
  }

  lemma {:induction false} FirstBadAt(t: Table, tokens: seq<int>, k: nat)
    requires k < |tokens| && !(0 <= tokens[k] < t.sourceVocab)
    requires forall i :: 0 <= i < k ==> 0 <= tokens[i] < t.sourceVocab
    ensures FirstBadIsNegative(t, tokens) <==> tokens[k] < 0
  {
    if k > 0 { FirstBadAt(t, tokens[1..], k - 1); }
  }

  /** Which ids the first `n` tokens and the always-listed prefix mark. */
  ghost predicate MarkedBy(t: Table, tokens: seq<int>, n: nat, id: nat)
    requires t.Valid() && t.offsets != [] && n <= |tokens|
    requires forall k :: 0 <= k < n ==> 0 <= tokens[k] < t.sourceVocab
  {
    id < t.firstNum
    || exists k, j :: 0 <= k < n && t.offsets[tokens[k]] <= j < t.offsets[tokens[k] + 1] && t.targets[j] == id
  }

  /** Marks the targets of one source token; no index can leave the table. */
  method MarkToken(t: Table, present: array<bool>, token: nat)
    requires t.Valid() && t.offsets != [] && token < t.sourceVocab && present.Length == t.targetVocab
    modifies present
    ensures forall id :: 0 <= id < present.Length ==>
              (present[id] <==> old(present[id]) || exists j :: t.offsets[token] <= j < t.offsets[token + 1] && t.targets[j] == id)
  {
    var start, end := t.offsets[token], t.offsets[token + 1];
    for j := start to end
      invariant forall id :: 0 <= id < present.Length ==>
                  (present[id] <==> old(present[id]) || exists i :: start <= i < j && t.targets[i] == id)
    {
      present[t.targets[j]] := true;
    }
  }

  method Candidates(t: Table, tokens: seq<int>) returns (r: Result<seq<nat>, Error>)
    requires t.Valid()
    ensures r == CandidatesOf(t, tokens)
  {
    var present := new bool[t.targetVocab](_ => t.offsets == []);
    if t.offsets != [] {
      for id := 0 to t.firstNum
        invariant forall i :: 0 <= i < present.Length ==> (present[i] <==> i < id)
      {
        present[id] := true;
      }
      for n := 0 to |tokens|
        invariant forall k :: 0 <= k < n ==> 0 <= tokens[k] < t.sourceVocab
        invariant forall id :: 0 <= id < present.Length ==> (present[id] <==> MarkedBy(t, tokens, n, id))
      {
        if tokens[n] < 0 || tokens[n] >= t.sourceVocab {
          FirstBadAt(t, tokens, n);
          assert !TokensInVocabulary(t, tokens);
          return Err(if tokens[n] < 0 then NegativeToken else TokenOutOfVocabulary);
        }
        MarkToken(t, present, tokens[n]);
      }
    }
    assert forall id :: 0 <= id < present.Length ==> (present[id] <==> ListedFor(t, tokens, id));
    r := Mask(t, present, tokens);
  }

  /** What is collected so far, and the padding that is still to come. */
  ghost function Expected(present: seq<bool>, from: nat, collected: seq<nat>): seq<nat> {
    collected + Padding(present, from, Missing(|collected|))
  }

  lemma MissingStep(size: nat)
    requires size % 8 != 0
    ensures Missing(size) > 0 && Missing(size + 1) == Missing(size) - 1
  {
  }

  lemma PadStep(present: seq<bool>, id: nat, collected: seq<nat>)
    requires id < |present| && |collected| % 8 != 0
    ensures Expected(present, id, collected)
            == Expected(present, id + 1, if present[id] then collected else collected + [id])
  {
    MissingStep(|collected|);
    if !present[id] {
      var rest := Padding(present, id + 1, Missing(|collected|) - 1);
      assert collected + ([id] + rest) == (collected + [id]) + rest;
    }
  }

  method Pad(present: seq<bool>) returns (candidates: seq<nat>)
    ensures candidates == Padded(present)
  {
    candidates := Members(present, 0);
    var id := 50;
    while id < |present|
      invariant Expected(present, id, candidates) == Padded(present)
    {
      if |candidates| % 8 == 0 { break; }
      PadStep(present, id, candidates);
      if !present[id] {
        candidates := candidates + [id];
      }
      id := id + 1;
    }
    assert Expected(present, id, candidates) == candidates;
  }

  method Mask(t: Table, present: array<bool>, ghost tokens: seq<int>) returns (r: Result<seq<nat>, Error>)
    requires t.Valid() && TokensInVocabulary(t, tokens) && present.Length == t.targetVocab
    requires forall id :: 0 <= id < present.Length ==> (present[id] <==> ListedFor(t, tokens, id))
    modifies present
    ensures r == CandidatesOf(t, tokens)
  {
    if t.targetVocab > 1 {
      present[1] := false;
    }
    if t.targetVocab > 7 {
      for id := 7 to Min(t.targetVocab, 39)
        invariant forall i :: 0 <= i < present.Length ==>
                    (present[i] <==> ListedFor(t, tokens, i) && i != 1 && !(7 <= i < id))
      {
        present[id] := false;
      }
    }
    ghost var selected := PresentFor(t, tokens);
    assert forall i :: 0 <= i < present.Length ==> present[i] == selected[i];
    assert present[..] == selected;
    var candidates := Pad(present[..]);
    candidates := Sorted(candidates, present.Length);
    if candidates == [] { return Err(NoCandidates); }
    if candidates[0] != 0 { return Err(NoEos); }
    return Ok(candidates);
  }

  // ---------------------------------------------------------------------------------- what a candidate list is

  lemma SortedElements(ids: seq<nat>, bound: nat)
    requires NoRepeats(ids) && forall i :: 0 <= i < |ids| ==> ids[i] < bound
    ensures Elements(Sorted(ids, bound)) == Elements(ids)
    ensures |Sorted(ids, bound)| == |ids|
  {
    var sorted := Sorted(ids, bound);
    assert Elements(sorted) == Elements(ids);
    ElementCount(ids);
    ElementCount(sorted);
  }

  lemma PaddedDistinct(present: seq<bool>)
    ensures NoRepeats(Padded(present)) && forall i :: 0 <= i < |Padded(present)| ==> Padded(present)[i] < |present|
  {
  }

  /** Listed ids that were not marked. */
  ghost function Extra(present: seq<bool>, ids: seq<nat>): set<nat> {
    set id | id in ids && !(id < |present| && present[id])
  }

  ghost function Chosen(present: seq<bool>): seq<nat> {
    Members(present, 0)
  }

  ghost function Pads(present: seq<bool>): seq<nat> {
    Padding(present, 50, Missing(|Chosen(present)|))
  }

  lemma FinishedMembers(present: seq<bool>, ids: seq<nat>, id: nat)
    requires Finish(present) == Ok(ids)
    ensures id in ids <==> id in Chosen(present) || id in Pads(present)
  {
    assert id in ids <==> id in Padded(present);
  }

  lemma FinishedExtra(present: seq<bool>, ids: seq<nat>)
    requires Finish(present) == Ok(ids)
    ensures Extra(present, ids) == Elements(Pads(present))
    ensures |Extra(present, ids)| <= 7
  {
    forall id: nat ensures id in Extra(present, ids) <==> id in Elements(Pads(present)) {
      FinishedMembers(present, ids, id);
    }
    ElementCount(Pads(present));
  }

  /** Eight divides the length, unless every id from 50 on is listed. */
  lemma FinishedLength(present: seq<bool>, ids: seq<nat>)
    requires Finish(present) == Ok(ids)
    ensures |ids| % 8 == 0 || forall id :: 50 <= id < |present| ==> id in ids
  {
    PaddedDistinct(present);
    SortedElements(Padded(present), |present|);
    if |Pads(present)| < Missing(|Chosen(present)|) {
      forall id | 50 <= id < |present| ensures id in ids {
        FinishedMembers(present, ids, id);
      }
    }
  }

  /** The padding is the smallest absent ids from 50 on. */
  lemma ExtraSmallest(present: seq<bool>, ids: seq<nat>, id: nat, absent: nat)
    requires Finish(present) == Ok(ids) && id in Extra(present, ids)
    ensures id >= 50
    ensures 50 <= absent < id ==> absent in ids
  {
    FinishedExtra(present, ids);
    FinishedMembers(present, ids, absent);
    var i :| 0 <= i < |Pads(present)| && Pads(present)[i] == id;
    if 50 <= absent < id && !present[absent] {
      PaddingSmallest(present, 50, Missing(|Chosen(present)|), absent, i);
    }
  }

  lemma FinishedUnmasked(t: Table, tokens: seq<int>, ids: seq<nat>)
    requires t.Valid() && CandidatesOf(t, tokens) == Ok(ids)
    ensures forall i :: 0 <= i < |ids| ==> ids[i] < t.targetVocab && !Masked(ids[i])
  {
    var present := PresentFor(t, tokens);
    forall i | 0 <= i < |ids| ensures ids[i] < t.targetVocab && !Masked(ids[i]) {
      if ids[i] in Extra(present, ids) { ExtraSmallest(present, ids, ids[i], 0); }
    }
  }

  /** The listed ids that were not selected: at most seven, and the smallest from 50 on. */
  lemma PaddingOnly(t: Table, tokens: seq<int>, ids: seq<nat>)
    requires t.Valid() && CandidatesOf(t, tokens) == Ok(ids)
    ensures var extra := set id | id in ids && !Selected(t, tokens, id);
            && |extra| <= 7
            && (forall id :: id in extra ==> id >= 50)
            && (forall id, absent: nat :: id in extra && 50 <= absent < id ==> absent in ids)
  {
    var present := PresentFor(t, tokens);
    assert (set id | id in ids && !Selected(t, tokens, id)) == Extra(present, ids);
    FinishedExtra(present, ids);
    forall id: nat, absent: nat | id in Extra(present, ids) ensures id >= 50 && (50 <= absent < id ==> absent in ids) {
      ExtraSmallest(present, ids, id, absent);
    }
  }

  /** The whole promise of the generation mask, for any table and sentence. */
  lemma CandidateList(t: Table, tokens: seq<int>, ids: seq<nat>)
    requires t.Valid() && CandidatesOf(t, tokens) == Ok(ids)
    ensures TokensInVocabulary(t, tokens)
    ensures ids != [] && ids[0] == 0
    ensures forall i, j :: 0 <= i < j < |ids| ==> ids[i] < ids[j]
    ensures forall i :: 0 <= i < |ids| ==> ids[i] < t.targetVocab && !Masked(ids[i])
    ensures forall id :: Selected(t, tokens, id) ==> id in ids
    ensures var extra := set id | id in ids && !Selected(t, tokens, id);
            && |extra| <= 7
            && (forall id :: id in extra ==> id >= 50)
            && (forall id, absent: nat :: id in extra && 50 <= absent < id ==> absent in ids)
    ensures |ids| % 8 == 0 || forall id :: 50 <= id < t.targetVocab ==> id in ids
  {
    var present := PresentFor(t, tokens);
    FinishedLength(present, ids);
    forall id | Selected(t, tokens, id) ensures id in ids {
      FinishedMembers(present, ids, id);
    }
    FinishedUnmasked(t, tokens, ids);
    PaddingOnly(t, tokens, ids);
  }

  // ---------------------------------------------------------------------------------- the byte format

  /** Header, offset table and targets; two header words carry no meaning here. */
  function Serialize(t: Table, spare1: nat, spare3: nat): seq<Byte> {
    Words([MAGIC, spare1, t.firstNum, spare3, |t.offsets|, |t.targets|], 8) + Words(t.offsets, 8) + Words(t.targets, 4)
  }

  predicate Below(targets: seq<nat>, bound: nat) {
    forall j :: 0 <= j < |targets| ==> targets[j] < bound
  }

  predicate Increasing(offsets: seq<nat>) {
    forall i :: 0 < i < |offsets| ==> offsets[i - 1] <= offsets[i]
  }

  lemma {:induction false} IncreasingAll(offsets: seq<nat>, i: nat, j: nat)
    requires Increasing(offsets) && i <= j < |offsets|
    ensures offsets[i] <= offsets[j]
  {
    if i < j { IncreasingAll(offsets, i, j - 1); }
  }

  function MaximumBytes(sourceVocab: nat): nat {
    HEADER_BYTES + (sourceVocab + 1) * 8 + MAX_TARGET_ENTRIES * 4
  }

  /** What `from_bytes` computes. */
  function Parse(payload: Option<seq<Byte>>, sourceVocab: nat, targetVocab: nat): (r: Result<Table, Error>) {
    if payload.None? then Ok(Table(sourceVocab, targetVocab, 0, [], []))
    else
      var bytes := payload.value;
      if MaximumBytes(sourceVocab) >= U64_END then Err(SourceVocabularyTooLarge)
      else if |bytes| > MaximumBytes(sourceVocab) then Err(TooManyBytes)
      else if |bytes| < HEADER_BYTES then Err(TruncatedHeader)
      else
        var header := Unwords(bytes[..HEADER_BYTES], 8, 6);
        var firstNum, offsetCount, targetCount := header[2], header[4], header[5];
        if header[0] != MAGIC || offsetCount != sourceVocab + 1 || firstNum > targetVocab || targetCount > MAX_TARGET_ENTRIES
        then Err(UnsupportedFormat)
        else if |bytes| != HEADER_BYTES + offsetCount * 8 + targetCount * 4 then Err(WrongLength)
        else ParseTables(bytes, sourceVocab, targetVocab, firstNum, offsetCount, targetCount)
  }

  function ParseTables(bytes: seq<Byte>, sourceVocab: nat, targetVocab: nat, firstNum: nat, offsetCount: nat, targetCount: nat)
    : Result<Table, Error>
    requires |bytes| == HEADER_BYTES + offsetCount * 8 + targetCount * 4 && offsetCount > 0
  {
    var split := HEADER_BYTES + offsetCount * 8;
    var offsets := Unwords(bytes[HEADER_BYTES..split], 8, offsetCount);
    var targets := Unwords(bytes[split..], 4, targetCount);
    if offsets[0] != 0 || offsets[offsetCount - 1] != targetCount || !Increasing(offsets) then Err(InvalidOffsets)
    else if !Below(targets, targetVocab) then Err(TargetOutOfVocabulary)
    else Ok(Table(sourceVocab, targetVocab, firstNum, offsets, targets))
  }

  /** Whatever the bytes, an accepted table can be looked up without leaving it. */
  lemma ParsedIsValid(payload: Option<seq<Byte>>, sourceVocab: nat, targetVocab: nat)
    requires Parse(payload, sourceVocab, targetVocab).Ok?
    ensures Parse(payload, sourceVocab, targetVocab).value.Valid()
  {
    if payload.Some? {
      var t := Parse(payload, sourceVocab, targetVocab).value;
      forall i, j | 0 <= i <= j < |t.offsets| ensures t.offsets[i] <= t.offsets[j] {
        IncreasingAll(t.offsets, i, j);
      }
    }
  }

  /** Every accepted payload is the serialization of its table: no byte but the two spare words is ignored. */
  lemma SerializeOfParse(bytes: seq<Byte>, sourceVocab: nat, targetVocab: nat)
    requires Parse(Some(bytes), sourceVocab, targetVocab).Ok?
    ensures exists spare1: nat, spare3: nat :: bytes == Serialize(Parse(Some(bytes), sourceVocab, targetVocab).value, spare1, spare3)
  {
    var t := Parse(Some(bytes), sourceVocab, targetVocab).value;
    var header := Unwords(bytes[..HEADER_BYTES], 8, 6);
    var split := HEADER_BYTES + |t.offsets| * 8;
    WordsOfUnwords(bytes[..HEADER_BYTES], 8, 6);
    WordsOfUnwords(bytes[HEADER_BYTES..split], 8, |t.offsets|);
    WordsOfUnwords(bytes[split..], 4, |t.targets|);
    assert header == [MAGIC, header[1], t.firstNum, header[3], |t.offsets|, |t.targets|];
    assert bytes == bytes[..HEADER_BYTES] + bytes[HEADER_BYTES..split] + bytes[split..];
    assert bytes == Serialize(t, header[1], header[3]);
  }

  /** What fits the format. */
  ghost predicate Serializable(t: Table) {
    && t.Valid() && t.offsets != []
    && |t.targets| <= MAX_TARGET_ENTRIES
    && MaximumBytes(t.sourceVocab) < U64_END
    && t.firstNum < U64_END
    && t.targetVocab <= U32_END
  }

  /** Parsing a serialized table gives that table back, whatever the spare words. */
  lemma ParseOfSerialize(t: Table, spare1: nat, spare3: nat)
    requires Serializable(t) && spare1 < U64_END && spare3 < U64_END
    ensures Parse(Some(Serialize(t, spare1, spare3)), t.sourceVocab, t.targetVocab) == Ok(t)
  {
    Widths();
    var head := [MAGIC, spare1, t.firstNum, spare3, |t.offsets|, |t.targets|];
    var bytes := Serialize(t, spare1, spare3);
    var split := HEADER_BYTES + |t.offsets| * 8;
    assert forall i :: 0 <= i < |t.offsets| ==> t.offsets[i] <= t.offsets[t.sourceVocab];
    UnwordsOfWords(head, 8);
    UnwordsOfWords(t.offsets, 8);
    UnwordsOfWords(t.targets, 4);
    assert bytes[..HEADER_BYTES] == Words(head, 8);
    assert bytes[HEADER_BYTES..split] == Words(t.offsets, 8);
    assert bytes[split..] == Words(t.targets, 4);
  }

  /** `from_bytes`, with its cursor. */
  method FromBytes(payload: Option<seq<Byte>>, sourceVocab: nat, targetVocab: nat) returns (r: Result<Table, Error>)
    ensures r == Parse(payload, sourceVocab, targetVocab)
    ensures r.Ok? ==> r.value.Valid()
  {
    if payload.None? { return Ok(Table(sourceVocab, targetVocab, 0, [], [])); }
    var bytes := payload.value;
    var offsetCountExpected := sourceVocab + 1;
    var maximumBytes := HEADER_BYTES + offsetCountExpected * 8 + MAX_TARGET_ENTRIES * 4;
    if maximumBytes >= U64_END { return Err(SourceVocabularyTooLarge); }
    if |bytes| > maximumBytes { return Err(TooManyBytes); }
    if |bytes| < HEADER_BYTES { return Err(TruncatedHeader); }
    ghost var header := Unwords(bytes[..HEADER_BYTES], 8, 6);
    var magic, firstNum := UnLe(bytes[0..8]), UnLe(bytes[16..24]);
    var offsetCount, targetCount := UnLe(bytes[32..40]), UnLe(bytes[40..48]);
    HeaderWords(bytes);
    if magic != MAGIC || offsetCount != offsetCountExpected || firstNum > targetVocab || targetCount > MAX_TARGET_ENTRIES {
      return Err(UnsupportedFormat);
    }
    if |bytes| != HEADER_BYTES + offsetCount * 8 + targetCount * 4 { return Err(WrongLength); }
    r := ReadTables(bytes, sourceVocab, targetVocab, firstNum, offsetCount, targetCount);
    if r.Ok? { ParsedIsValid(payload, sourceVocab, targetVocab); }
  }

  method ReadTables(bytes: seq<Byte>, sourceVocab: nat, targetVocab: nat, firstNum: nat, offsetCount: nat, targetCount: nat)
    returns (r: Result<Table, Error>)
    requires |bytes| == HEADER_BYTES + offsetCount * 8 + targetCount * 4 && offsetCount > 0
    ensures r == ParseTables(bytes, sourceVocab, targetVocab, firstNum, offsetCount, targetCount)
  {
    var offsets, cursor := ReadWords(bytes, HEADER_BYTES, 8, offsetCount);
    if offsets[0] != 0 || offsets[offsetCount - 1] != targetCount || !Increasing(offsets) { return Err(InvalidOffsets); }
    var targets, end := ReadWords(bytes, cursor, 4, targetCount);
    assert bytes[cursor..] == bytes[cursor..end];
    if !Below(targets, targetVocab) { return Err(TargetOutOfVocabulary); }
    return Ok(Table(sourceVocab, targetVocab, firstNum, offsets, targets));
  }

  lemma HeaderWords(bytes: seq<Byte>)
    requires |bytes| >= HEADER_BYTES
    ensures var header := Unwords(bytes[..HEADER_BYTES], 8, 6);
            UnLe(bytes[0..8]) == header[0] && UnLe(bytes[16..24]) == header[2]
            && UnLe(bytes[32..40]) == header[4] && UnLe(bytes[40..48]) == header[5]
  {
    var h := bytes[..HEADER_BYTES];
    assert Block(h, 8, 6, 0) == bytes[0..8] && Block(h, 8, 6, 2) == bytes[16..24];
    assert Block(h, 8, 6, 4) == bytes[32..40] && Block(h, 8, 6, 5) == bytes[40..48];
  }

  method ReadWords(bytes: seq<Byte>, start: nat, width: nat, count: nat) returns (values: seq<nat>, cursor: nat)
    requires start + count * width <= |bytes|
    ensures cursor == start + count * width
    ensures values == Unwords(bytes[start..cursor], width, count)
  {
    ghost var section := bytes[start..start + count * width];
    values, cursor := [], start;
    for i := 0 to count
      invariant cursor == start + i * width
      invariant values == Unwords(section, width, count)[..i]
    {
      RowFits(i, count, width);
      SliceOfSlice(bytes, start, start + count * width, i * width, i * width + width);
      values := values + [UnLe(bytes[cursor..cursor + width])];
      cursor := cursor + width;
    }
  }
}
