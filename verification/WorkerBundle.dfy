/**
 The packed bundle of the Wasm Worker (`crates/marian-cpu/src/q8_engine/worker_packed.rs`): decoding an encoded
 model gives the model back, and dense ranges and sections lie side by side.
 */
module WorkerBundle {
  import opened Base
  import opened Bytes
  import opened Codec

  const VERSION: nat := 2
  const MAX_STRING_BYTES: nat := 256
  const BUNDLE_HEADER_BYTES: nat := 28

  /** ASCII text as bytes. */
  function Ascii(text: string): (bytes: Input)
    ensures |bytes| == |text|
  {
    seq(|text|, i requires 0 <= i < |text| => text[i] as int % 256)
  }

  const METADATA_MAGIC: Input := Ascii("MARIWPK2")
  const BUNDLE_MAGIC: Input := Ascii("MARIBND2")

  type Floats = seq<nat>

  datatype Architecture = Architecture(sizes: seq<nat>, eosId: nat, unkId: nat) {
    /** In the order in which they are written. */
    predicate Valid() { |sizes| == 8 && eosId < U32_END && unkId < U32_END }
    function ModelDim(): nat requires Valid() { sizes[0] }
    function EncoderLayers(): nat requires Valid() { sizes[2] }
    function DecoderLayers(): nat requires Valid() { sizes[3] }
    function FfnDim(): nat requires Valid() { sizes[4] }
    function SourceVocab(): nat requires Valid() { sizes[5] }
    function TargetVocab(): nat requires Valid() { sizes[6] }
  }

  datatype Linear = Linear(name: Input, input: nat, output: nat, activation: nat, weight: nat, bias: Option<Floats>, words: seq<nat>)

  datatype Matrix = Matrix(rows: nat, cols: nat, values: Floats)

  datatype Item = LinearItem(linear: Linear) | MatrixItem(matrix: Matrix)

  datatype Embedding = Embedding(rows: nat, cols: nat, multiplier: nat, values: seq<Byte>)

  /** The layers as one list of operators, in the order of `Plan`. */
  datatype Model = Model(encoderEmbedding: Embedding, decoderEmbedding: Embedding, outputActivation: nat, outputBias: Floats, items: seq<Item>)

  /** What the host decides: the kernel's name, which packed words it restores, and which multipliers have a usable product. */
  datatype Host = Host(kernel: Input, restores: (nat, nat, seq<nat>) -> bool, productOk: (nat, nat) -> bool)

  datatype Error =
    | Truncated | BadMagic | UnsupportedVersion | StringTooLong | WrongKernel | ArchitectureMismatch | ShapeMismatch | NotFinite
    | NotPositive | WrongLength | OutOfOrder | BadProduct | NotRestored | TrailingBytes

  // ---------------------------------------------------------------------------------- the order of the operators

  datatype Slot = LinearSlot(name: Input, input: nat, output: nat) | MatrixSlot(rows: nat, cols: nat)

  function Decimal(n: nat): Input {
    if n < 10 then [48 + n] else Decimal(n / 10) + [48 + n % 10]
  }

  function AttentionSlots(prefix: Input, dim: nat): seq<Slot> {
    [LinearSlot(prefix + Ascii("_Wq"), dim, dim), LinearSlot(prefix + Ascii("_Wk"), dim, dim),
     LinearSlot(prefix + Ascii("_Wv"), dim, dim), LinearSlot(prefix + Ascii("_Wo"), dim, dim), MatrixSlot(1, dim), MatrixSlot(1, dim)]
  }

  function FfnSlots(prefix: Input, dim: nat, ffn: nat): seq<Slot> {
    [LinearSlot(prefix + Ascii("_W1"), dim, ffn), LinearSlot(prefix + Ascii("_W2"), ffn, dim), MatrixSlot(1, dim), MatrixSlot(1, dim)]
  }

  function SsruSlots(prefix: Input, dim: nat): seq<Slot> {
    [LinearSlot(prefix + Ascii("_W"), dim, dim), LinearSlot(prefix + Ascii("_Wf"), dim, dim), MatrixSlot(1, dim), MatrixSlot(1, dim)]
  }

  function EncoderSlots(a: Architecture, layer: nat): seq<Slot>
    requires a.Valid()
  {
    var prefix := Ascii("encoder_l") + Decimal(layer);
    AttentionSlots(prefix + Ascii("_self"), a.ModelDim()) + FfnSlots(prefix + Ascii("_ffn"), a.ModelDim(), a.FfnDim())
  }

  function DecoderSlots(a: Architecture, layer: nat): seq<Slot>
    requires a.Valid()
  {
    var prefix := Ascii("decoder_l") + Decimal(layer);
    SsruSlots(prefix + Ascii("_rnn"), a.ModelDim()) + AttentionSlots(prefix + Ascii("_context"), a.ModelDim())
    + FfnSlots(prefix + Ascii("_ffn"), a.ModelDim(), a.FfnDim())
  }

  function EncoderPlan(a: Architecture, layers: nat): seq<Slot>
    requires a.Valid()
  {
    if layers == 0 then [] else EncoderPlan(a, layers - 1) + EncoderSlots(a, layers)
  }

  function DecoderPlan(a: Architecture, layers: nat): seq<Slot>
    requires a.Valid()
  {
    if layers == 0 then [] else DecoderPlan(a, layers - 1) + DecoderSlots(a, layers)
  }

  /** All operators of a model, layer by layer. */
  function Plan(a: Architecture): seq<Slot>
    requires a.Valid()
  {
    EncoderPlan(a, a.EncoderLayers()) + DecoderPlan(a, a.DecoderLayers())
  }

  // ---------------------------------------------------------------------------------- numbers and floats

  function ReadWord(bytes: Input): Outcome<nat, Error> {
    var word := Number(bytes, 4);
    if word.None? then Err(Truncated) else Ok(word.value)
  }

  lemma WordWritten(value: nat, rest: Input)
    requires value < U32_END
    ensures ReadWord(Le32(value) + rest) == Ok((value, rest))
  {
    Widths();
    NumberWritten(value, 4, rest);
  }

  function ReadFloat(bytes: Input): Outcome<nat, Error> {
    var word := ReadWord(bytes);
    if word.Err? then word else if !Finite(word.value.0) then Err(NotFinite) else word
  }

  /** A finite float greater than zero. */
  function ReadPositive(bytes: Input): Outcome<nat, Error> {
    var float := ReadFloat(bytes);
    if float.Err? then float else if !FinitePositive(float.value.0) then Err(NotPositive) else float
  }

  predicate FloatOk(bits: nat) {
    bits < U32_END && Finite(bits)
  }

  function WordStep(): Step<nat, Error> {
    (done: seq<nat>, bytes: Input) => ReadWord(bytes)
  }

  function FloatStep(): Step<nat, Error> {
    (done: seq<nat>, bytes: Input) => ReadFloat(bytes)
  }

  function WordWriter(): Writer<nat> {
    (done: seq<nat>, value: nat) => Le32(value)
  }

  ghost predicate AllFloats(values: Floats) {
    forall i :: 0 <= i < |values| ==> FloatOk(values[i])
  }

  function ReadFloats(n: nat, bytes: Input): Outcome<Floats, Error> {
    ReadFrom(FloatStep(), n, [], bytes)
  }

  function WriteWords(values: seq<nat>): Input {
    WriteFrom(WordWriter(), values, 0)
  }

  function WordCheck(): Check<nat> {
    (done: seq<nat>, value: nat) => value < U32_END
  }

  function FloatCheck(): Check<nat> {
    (done: seq<nat>, value: nat) => FloatOk(value)
  }

  lemma WordsWritten(values: seq<nat>, rest: Input)
    requires forall i :: 0 <= i < |values| ==> values[i] < U32_END
    ensures ReadFrom(WordStep(), |values|, [], WriteWords(values) + rest) == Ok((values, rest))
  {
    forall done: seq<nat>, value: nat, rest: Input | WordCheck()(done, value)
      ensures Undoes(WordStep(), WordWriter(), done, value, rest)
    {
      WordWritten(value, rest);
    }
    assert values[..0] == [];
    ReadOfWritten(WordStep(), WordWriter(), WordCheck(), values, 0, rest);
  }

  lemma FloatsWritten(values: Floats, rest: Input)
    requires AllFloats(values)
    ensures ReadFloats(|values|, WriteWords(values) + rest) == Ok((values, rest))
  {
    forall done: seq<nat>, value: nat, rest: Input | FloatCheck()(done, value)
      ensures Undoes(FloatStep(), WordWriter(), done, value, rest)
    {
      WordWritten(value, rest);
    }
    assert values[..0] == [];
    ReadOfWritten(FloatStep(), WordWriter(), FloatCheck(), values, 0, rest);
  }

  // ---------------------------------------------------------------------------------- strings

  /** A string that must be this one; text that is not UTF-8 differs from every expected name. */
  function ReadString(expected: Input, mismatch: Error, bytes: Input): Result<Input, Error> {
    var length := ReadWord(bytes);
    if length.Err? then Err(length.error)
    else if length.value.0 > MAX_STRING_BYTES then Err(StringTooLong)
    else
      var text := Take(length.value.1, length.value.0);
      if text.None? then Err(Truncated)
      else if text.value.0 != expected then Err(mismatch)
      else Ok(text.value.1)
  }

  function WriteString(text: Input): Input {
    Le32(|text|) + text
  }

  lemma StringWritten(text: Input, mismatch: Error, rest: Input)
    requires |text| <= MAX_STRING_BYTES
    ensures ReadString(text, mismatch, WriteString(text) + rest) == Ok(rest)
  {
    assert WriteString(text) + rest == Le32(|text|) + (text + rest);
    WordWritten(|text|, text + rest);
    TakeWritten(text, rest);
  }

  // ---------------------------------------------------------------------------------- operators

  /** Two sizes that must be these. */
  function ReadSizes(a: nat, b: nat, bytes: Input): Result<Input, Error> {
    var first := ReadWord(bytes);
    if first.Err? then Err(first.error) else
    var second := ReadWord(first.value.1);
    if second.Err? then Err(second.error)
    else if first.value.0 != a || second.value.0 != b then Err(ShapeMismatch)
    else Ok(second.value.1)
  }

  function WriteSizes(a: nat, b: nat): Input {
    Le32(a) + Le32(b)
  }

  lemma SizesWritten(a: nat, b: nat, rest: Input)
    requires a < U32_END && b < U32_END
    ensures ReadSizes(a, b, WriteSizes(a, b) + rest) == Ok(rest)
  {
    assert WriteSizes(a, b) + rest == Le32(a) + (Le32(b) + rest);
    WordWritten(a, Le32(b) + rest);
    WordWritten(b, rest);
  }

  /** A counted vector of the expected length. */
  function ReadVector(expected: nat, bytes: Input): Outcome<Floats, Error> {
    var length := ReadWord(bytes);
    if length.Err? then Err(length.error)
    else if length.value.0 != expected then Err(WrongLength)
    else ReadFloats(expected, length.value.1)
  }

  function WriteVector(values: Floats): Input {
    Le32(|values|) + WriteWords(values)
  }

  lemma VectorWritten(values: Floats, rest: Input)
    requires AllFloats(values) && |values| < U32_END
    ensures ReadVector(|values|, WriteVector(values) + rest) == Ok((values, rest))
  {
    assert WriteVector(values) + rest == Le32(|values|) + (WriteWords(values) + rest);
    WordWritten(|values|, WriteWords(values) + rest);
    FloatsWritten(values, rest);
  }

  /** No bias is written as the largest length. */
  function ReadBias(output: nat, bytes: Input): Outcome<Option<Floats>, Error> {
    var length := ReadWord(bytes);
    if length.Err? then Err(length.error)
    else if length.value.0 == U32_END - 1 then Ok((None, length.value.1))
    else if length.value.0 != output then Err(WrongLength)
    else
      var floats := ReadFloats(output, length.value.1);
      if floats.Err? then Err(floats.error) else Ok((Some(floats.value.0), floats.value.1))
  }

  function WriteBias(bias: Option<Floats>): Input {
    if bias.None? then Le32(U32_END - 1) else WriteVector(bias.value)
  }

  lemma BiasWritten(output: nat, bias: Option<Floats>, rest: Input)
    requires bias.Some? ==> AllFloats(bias.value) && |bias.value| == output < U32_END - 1
    ensures ReadBias(output, WriteBias(bias) + rest) == Ok((bias, rest))
  {
    if bias.None? {
      WordWritten(U32_END - 1, rest);
    } else {
      assert WriteVector(bias.value) + rest == Le32(output) + (WriteWords(bias.value) + rest);
      WordWritten(output, WriteWords(bias.value) + rest);
      FloatsWritten(bias.value, rest);
    }
  }

  datatype Scales = Scales(activation: nat, weight: nat, bias: Option<Floats>)

  function ReadScales(output: nat, bytes: Input): Outcome<Scales, Error> {
    var activation := ReadPositive(bytes);
    if activation.Err? then Err(activation.error) else
    var weight := ReadPositive(activation.value.1);
    if weight.Err? then Err(weight.error) else
    var bias := ReadBias(output, weight.value.1);
    if bias.Err? then Err(bias.error) else Ok((Scales(activation.value.0, weight.value.0, bias.value.0), bias.value.1))
  }

  function WriteScales(s: Scales): Input {
    Le32(s.activation) + (Le32(s.weight) + WriteBias(s.bias))
  }

  predicate ScalesOk(output: nat, s: Scales) {
    && FinitePositive(s.activation) && FinitePositive(s.weight)
    && (s.bias.Some? ==> |s.bias.value| == output < U32_END - 1 && forall i :: 0 <= i < |s.bias.value| ==> FloatOk(s.bias.value[i]))
  }

  lemma ScalesWritten(output: nat, s: Scales, rest: Input)
    requires ScalesOk(output, s)
    ensures ReadScales(output, WriteScales(s) + rest) == Ok((s, rest))
  {
    var bias := WriteBias(s.bias) + rest;
    assert WriteScales(s) + rest == Le32(s.activation) + (Le32(s.weight) + bias);
    WordWritten(s.activation, Le32(s.weight) + bias);
    WordWritten(s.weight, bias);
    BiasWritten(output, s.bias, rest);
  }

  /** `from_shared_packed_parts`: the words are a slice of the shared dense section. */
  function Restore(h: Host, dense: seq<nat>, slot: Slot, s: Scales, start: nat, words: nat): Result<Item, Error>
    requires slot.LinearSlot?
  {
    if slot.input == 0 || slot.output == 0 then Err(ShapeMismatch)
    else if !h.productOk(s.activation, s.weight) then Err(BadProduct)
    else if start + words > |dense| || !h.restores(slot.input, slot.output, dense[start..start + words]) then Err(NotRestored)
    else Ok(LinearItem(Linear(slot.name, slot.input, slot.output, s.activation, s.weight, s.bias, dense[start..start + words])))
  }

  function ReadLinear(h: Host, dense: seq<nat>, slot: Slot, bytes: Input): Outcome<Item, Error>
    requires slot.LinearSlot?
  {
    var name := ReadString(slot.name, OutOfOrder, bytes);
    if name.Err? then Err(name.error) else
    var sizes := ReadSizes(slot.input, slot.output, name.value);
    if sizes.Err? then Err(sizes.error) else
    var scales := ReadScales(slot.output, sizes.value);
    if scales.Err? then Err(scales.error) else
    var start := ReadWord(scales.value.1);
    if start.Err? then Err(start.error) else
    var words := ReadWord(start.value.1);
    if words.Err? then Err(words.error) else
    var item := Restore(h, dense, slot, scales.value.0, start.value.0, words.value.0);
    if item.Err? then Err(item.error) else Ok((item.value, words.value.1))
  }

  function ScalesOf(l: Linear): Scales {
    Scales(l.activation, l.weight, l.bias)
  }

  /** An operator whose packed words start at `start` of the dense section. */
  function WriteLinear(l: Linear, start: nat): Input {
    WriteString(l.name) + (WriteSizes(l.input, l.output) + (WriteScales(ScalesOf(l)) + WriteSizes(start, |l.words|)))
  }

  ghost predicate LinearOk(h: Host, slot: Slot, l: Linear) {
    && slot == LinearSlot(l.name, l.input, l.output) && |l.name| <= MAX_STRING_BYTES
    && 0 < l.input < U32_END && 0 < l.output < U32_END
    && ScalesOk(l.output, ScalesOf(l)) && h.productOk(l.activation, l.weight)
    && h.restores(l.input, l.output, l.words)
  }

  lemma RangeWritten(start: nat, words: nat, rest: Input)
    requires start < U32_END && words < U32_END
    ensures ReadWord(WriteSizes(start, words) + rest) == Ok((start, Le32(words) + rest))
    ensures ReadWord(Le32(words) + rest) == Ok((words, rest))
  {
    assert WriteSizes(start, words) + rest == Le32(start) + (Le32(words) + rest);
    WordWritten(start, Le32(words) + rest);
    WordWritten(words, rest);
  }

  lemma Associates(a: Input, b: Input, c: Input, d: Input, e: Input)
    ensures (a + (b + (c + d))) + e == a + (b + (c + (d + e)))
  {
  }

  lemma LinearWritten(h: Host, dense: seq<nat>, slot: Slot, l: Linear, start: nat, rest: Input)
    requires LinearOk(h, slot, l) && start + |l.words| <= |dense| < U32_END && dense[start..start + |l.words|] == l.words
    ensures ReadLinear(h, dense, slot, WriteLinear(l, start) + rest) == Ok((LinearItem(l), rest))
  {
    var range := WriteSizes(start, |l.words|) + rest;
    var scales := WriteScales(ScalesOf(l)) + range;
    var sizes := WriteSizes(l.input, l.output) + scales;
    Associates(WriteString(l.name), WriteSizes(l.input, l.output), WriteScales(ScalesOf(l)), WriteSizes(start, |l.words|), rest);
    StringWritten(l.name, OutOfOrder, sizes);
    SizesWritten(l.input, l.output, scales);
    ScalesWritten(l.output, ScalesOf(l), range);
    RangeWritten(start, |l.words|, rest);
  }

  function Area(rows: nat, cols: nat): nat {
    rows * cols
  }

  function ReadMatrix(slot: Slot, bytes: Input): Outcome<Item, Error>
    requires slot.MatrixSlot?
  {
    var sizes := ReadSizes(slot.rows, slot.cols, bytes);
    if sizes.Err? then Err(sizes.error) else
    var values := ReadVector(Area(slot.rows, slot.cols), sizes.value);
    if values.Err? then Err(values.error) else Ok((MatrixItem(Matrix(slot.rows, slot.cols, values.value.0)), values.value.1))
  }

  function WriteMatrix(m: Matrix): Input {
    WriteSizes(m.rows, m.cols) + WriteVector(m.values)
  }

  ghost predicate MatrixOk(slot: Slot, m: Matrix) {
    && slot == MatrixSlot(m.rows, m.cols) && m.rows < U32_END && m.cols < U32_END
    && |m.values| == Area(m.rows, m.cols) < U32_END && AllFloats(m.values)
  }

  lemma MatrixWritten(slot: Slot, m: Matrix, rest: Input)
    requires MatrixOk(slot, m)
    ensures ReadMatrix(slot, WriteMatrix(m) + rest) == Ok((MatrixItem(m), rest))
  {
    assert WriteMatrix(m) + rest == WriteSizes(m.rows, m.cols) + (WriteVector(m.values) + rest);
    SizesWritten(m.rows, m.cols, WriteVector(m.values) + rest);
    VectorWritten(m.values, rest);
  }

  // ---------------------------------------------------------------------------------- operators and the dense section

  function PackedWords(item: Item): seq<nat> {
    if item.LinearItem? then item.linear.words else []
  }

  /** The dense section: the packed words of all operators, one after another. */
  function DenseOf(items: seq<Item>): seq<nat> {
    if items == [] then [] else DenseOf(items[..|items| - 1]) + PackedWords(items[|items| - 1])
  }

  lemma DenseOne(items: seq<Item>, item: Item)
    ensures DenseOf(items + [item]) == DenseOf(items) + PackedWords(item)
  {
    assert (items + [item])[..|items|] == items;
  }

  /** The range of an operator begins where its predecessors end, and holds its words. */
  lemma {:induction false} DenseRanges(items: seq<Item>, k: nat)
    requires k < |items|
    ensures var start, end := |DenseOf(items[..k])|, |DenseOf(items[..k + 1])|;
            && start + |PackedWords(items[k])| == end <= |DenseOf(items)|
            && DenseOf(items)[start..end] == PackedWords(items[k])
            && DenseOf(items)[..end] == DenseOf(items[..k + 1])
  {
    assert items[..k + 1] == items[..k] + [items[k]];
    DenseOne(items[..k], items[k]);
    if k == |items| - 1 {
      assert items[..k + 1] == items;
    } else {
      var front := items[..|items| - 1];
      DenseRanges(front, k);
      assert front[..k] == items[..k] && front[..k + 1] == items[..k + 1];
    }
  }

  function ReadItem(h: Host, dense: seq<nat>, slot: Slot, bytes: Input): Outcome<Item, Error> {
    if slot.LinearSlot? then ReadLinear(h, dense, slot, bytes) else ReadMatrix(slot, bytes)
  }

  function WriteItem(item: Item, start: nat): Input {
    if item.LinearItem? then WriteLinear(item.linear, start) else WriteMatrix(item.matrix)
  }

  ghost predicate ItemOk(h: Host, slot: Slot, item: Item) {
    if item.LinearItem? then LinearOk(h, slot, item.linear) else MatrixOk(slot, item.matrix)
  }

  function ItemStep(h: Host, dense: seq<nat>, plan: seq<Slot>): Step<Item, Error> {
    (done: seq<Item>, bytes: Input) => if |done| < |plan| then ReadItem(h, dense, plan[|done|], bytes) else Err(Truncated)
  }

  function ItemWriter(): Writer<Item> {
    (done: seq<Item>, item: Item) => WriteItem(item, |DenseOf(done)|)
  }

  /** An item that fits its slot, and whose words lie in the dense section behind those of its predecessors. */
  ghost function ItemCheck(h: Host, dense: seq<nat>, plan: seq<Slot>): Check<Item> {
    (done: seq<Item>, item: Item) => |done| < |plan| && ItemOk(h, plan[|done|], item) && DenseOf(done) + PackedWords(item) <= dense
  }

  lemma ItemsReread(h: Host, dense: seq<nat>, plan: seq<Slot>)
    requires |dense| < U32_END
    ensures Rereads(ItemStep(h, dense, plan), ItemWriter(), ItemCheck(h, dense, plan), |plan|)
  {
    var step, write, ok := ItemStep(h, dense, plan), ItemWriter(), ItemCheck(h, dense, plan);
    forall done: seq<Item>, item: Item, rest: Input | |done| < |plan| && ok(done, item)
      ensures Undoes(step, write, done, item, rest)
    {
      var slot, start := plan[|done|], |DenseOf(done)|;
      if item.LinearItem? {
        assert dense[start..start + |item.linear.words|] == item.linear.words;
        LinearWritten(h, dense, slot, item.linear, start, rest);
      } else {
        MatrixWritten(slot, item.matrix, rest);
      }
    }
  }

  ghost predicate ItemsOk(h: Host, plan: seq<Slot>, items: seq<Item>) {
    |items| == |plan| && forall i :: 0 <= i < |items| ==> ItemOk(h, plan[i], items[i])
  }

  function ReadItems(h: Host, dense: seq<nat>, plan: seq<Slot>, bytes: Input): Outcome<seq<Item>, Error> {
    ReadFrom(ItemStep(h, dense, plan), |plan|, [], bytes)
  }

  function WriteItems(items: seq<Item>): Input {
    WriteFrom(ItemWriter(), items, 0)
  }

  /** All operators are read back, each with its own range of the dense section. */
  lemma ItemsWritten(h: Host, plan: seq<Slot>, items: seq<Item>, rest: Input)
    requires ItemsOk(h, plan, items) && |DenseOf(items)| < U32_END
    ensures ReadItems(h, DenseOf(items), plan, WriteItems(items) + rest) == Ok((items, rest))
  {
    var dense := DenseOf(items);
    ItemsReread(h, dense, plan);
    forall i | 0 <= i < |items| ensures ItemCheck(h, dense, plan)(items[..i], items[i]) {
      DenseRanges(items, i);
      assert items[..i + 1] == items[..i] + [items[i]];
      DenseOne(items[..i], items[i]);
    }
    assert items[..0] == [];
    ReadOfWritten(ItemStep(h, dense, plan), ItemWriter(), ItemCheck(h, dense, plan), items, 0, rest);
  }

  // ---------------------------------------------------------------------------------- metadata

  function ReadMagic(bytes: Input): Result<Input, Error> {
    var magic := Take(bytes, 8);
    if magic.None? then Err(Truncated) else if magic.value.0 != METADATA_MAGIC then Err(BadMagic) else
    var version := ReadWord(magic.value.1);
    if version.Err? then Err(version.error)
    else if version.value.0 != VERSION then Err(UnsupportedVersion)
    else Ok(version.value.1)
  }

  function ReadArchitecture(a: Architecture, bytes: Input): Result<Input, Error> {
    var sizes := ReadFrom(WordStep(), 8, [], bytes);
    if sizes.Err? then Err(sizes.error) else
    var eos := ReadWord(sizes.value.1);
    if eos.Err? then Err(eos.error) else
    var unk := ReadWord(eos.value.1);
    if unk.Err? then Err(unk.error)
    else if sizes.value.0 != a.sizes || eos.value.0 != a.eosId || unk.value.0 != a.unkId then Err(ArchitectureMismatch)
    else Ok(unk.value.1)
  }

  function WriteArchitecture(a: Architecture): Input {
    WriteWords(a.sizes) + (Le32(a.eosId) + Le32(a.unkId))
  }

  lemma ArchitectureWritten(a: Architecture, rest: Input)
    requires a.Valid() && forall i :: 0 <= i < |a.sizes| ==> a.sizes[i] < U32_END
    ensures ReadArchitecture(a, WriteArchitecture(a) + rest) == Ok(rest)
  {
    var ids := Le32(a.eosId) + (Le32(a.unkId) + rest);
    assert WriteArchitecture(a) + rest == WriteWords(a.sizes) + ids;
    WordsWritten(a.sizes, ids);
    WordWritten(a.eosId, Le32(a.unkId) + rest);
    WordWritten(a.unkId, rest);
  }

  /** Magic, version, kernel and architecture must all be the expected ones. */
  function ReadPreamble(h: Host, a: Architecture, bytes: Input): Result<Input, Error> {
    var magic := ReadMagic(bytes);
    if magic.Err? then magic else
    var kernel := ReadString(h.kernel, WrongKernel, magic.value);
    if kernel.Err? then kernel else ReadArchitecture(a, kernel.value)
  }

  function WritePreamble(h: Host, a: Architecture): Input {
    METADATA_MAGIC + (Le32(VERSION) + (WriteString(h.kernel) + WriteArchitecture(a)))
  }

  lemma PreambleWritten(h: Host, a: Architecture, rest: Input)
    requires |h.kernel| <= MAX_STRING_BYTES && a.Valid() && forall i :: 0 <= i < |a.sizes| ==> a.sizes[i] < U32_END
    ensures ReadPreamble(h, a, WritePreamble(h, a) + rest) == Ok(rest)
  {
    var architecture := WriteArchitecture(a) + rest;
    var kernel := WriteString(h.kernel) + architecture;
    Associates(METADATA_MAGIC, Le32(VERSION), WriteString(h.kernel), WriteArchitecture(a), rest);
    TakeWritten(METADATA_MAGIC, Le32(VERSION) + kernel);
    WordWritten(VERSION, kernel);
    StringWritten(h.kernel, WrongKernel, architecture);
    ArchitectureWritten(a, rest);
  }

  function ReadEmbedding(rows: nat, cols: nat, values: seq<Byte>, bytes: Input): Outcome<Embedding, Error> {
    var sizes := ReadSizes(rows, cols, bytes);
    if sizes.Err? then Err(sizes.error) else
    var multiplier := ReadPositive(sizes.value);
    if multiplier.Err? then Err(multiplier.error) else
    var length := ReadWord(multiplier.value.1);
    if length.Err? then Err(length.error)
    else if length.value.0 != Area(rows, cols) || |values| != Area(rows, cols) then Err(WrongLength)
    else Ok((Embedding(rows, cols, multiplier.value.0, values), length.value.1))
  }

  function WriteEmbedding(e: Embedding): Input {
    WriteSizes(e.rows, e.cols) + (Le32(e.multiplier) + Le32(|e.values|))
  }

  predicate EmbeddingOk(rows: nat, cols: nat, e: Embedding) {
    e.rows == rows && e.cols == cols && FinitePositive(e.multiplier) && |e.values| == Area(rows, cols)
  }

  lemma EmbeddingWritten(e: Embedding, rest: Input)
    requires EmbeddingOk(e.rows, e.cols, e) && e.rows < U32_END && e.cols < U32_END && |e.values| < U32_END
    ensures ReadEmbedding(e.rows, e.cols, e.values, WriteEmbedding(e) + rest) == Ok((e, rest))
  {
    var later := Le32(e.multiplier) + (Le32(|e.values|) + rest);
    assert WriteEmbedding(e) + rest == WriteSizes(e.rows, e.cols) + later;
    SizesWritten(e.rows, e.cols, later);
    WordWritten(e.multiplier, Le32(|e.values|) + rest);
    WordWritten(|e.values|, rest);
  }

  /** What precedes the layers: both embeddings, the output scale and the output bias. */
  datatype Front = Front(encoder: Embedding, decoder: Embedding, outputActivation: nat, outputBias: Floats)

  function ReadFront(a: Architecture, encoderValues: seq<Byte>, decoderValues: seq<Byte>, bytes: Input): Outcome<Front, Error>
    requires a.Valid()
  {
    var encoder := ReadEmbedding(a.SourceVocab(), a.ModelDim(), encoderValues, bytes);
    if encoder.Err? then Err(encoder.error) else
    var decoder := ReadEmbedding(a.TargetVocab(), a.ModelDim(), decoderValues, encoder.value.1);
    if decoder.Err? then Err(decoder.error) else
    var activation := ReadPositive(decoder.value.1);
    if activation.Err? then Err(activation.error) else
    var bias := ReadVector(a.TargetVocab(), activation.value.1);
    if bias.Err? then Err(bias.error)
    else Ok((Front(encoder.value.0, decoder.value.0, activation.value.0, bias.value.0), bias.value.1))
  }

  function FrontOf(m: Model): Front {
    Front(m.encoderEmbedding, m.decoderEmbedding, m.outputActivation, m.outputBias)
  }

  function WriteFront(f: Front): Input {
    WriteEmbedding(f.encoder) + (WriteEmbedding(f.decoder) + (Le32(f.outputActivation) + WriteVector(f.outputBias)))
  }

  ghost predicate FrontOk(a: Architecture, f: Front) {
    && a.Valid() && EmbeddingOk(a.SourceVocab(), a.ModelDim(), f.encoder) && EmbeddingOk(a.TargetVocab(), a.ModelDim(), f.decoder)
    && FinitePositive(f.outputActivation) && |f.outputBias| == a.TargetVocab() && AllFloats(f.outputBias)
  }

  lemma FrontWritten(a: Architecture, f: Front, rest: Input)
    requires FrontOk(a, f) && (forall i :: 0 <= i < |a.sizes| ==> a.sizes[i] < U32_END)
    requires |f.encoder.values| < U32_END && |f.decoder.values| < U32_END
    ensures ReadFront(a, f.encoder.values, f.decoder.values, WriteFront(f) + rest) == Ok((f, rest))
  {
    var bias := WriteVector(f.outputBias) + rest;
    var activation := Le32(f.outputActivation) + bias;
    Associates(WriteEmbedding(f.encoder), WriteEmbedding(f.decoder), Le32(f.outputActivation), WriteVector(f.outputBias), rest);
    EmbeddingWritten(f.encoder, WriteEmbedding(f.decoder) + activation);
    EmbeddingWritten(f.decoder, activation);
    WordWritten(f.outputActivation, bias);
    VectorWritten(f.outputBias, rest);
  }

  /** `decode_parts`. */
  function DecodeParts(h: Host, a: Architecture, metadata: Input, dense: seq<nat>, encoderValues: seq<Byte>, decoderValues: seq<Byte>)
    : Result<Model, Error>
    requires a.Valid()
  {
    var preamble := ReadPreamble(h, a, metadata);
    if preamble.Err? then Err(preamble.error) else
    var front := ReadFront(a, encoderValues, decoderValues, preamble.value);
    if front.Err? then Err(front.error) else
    var items := ReadItems(h, dense, Plan(a), front.value.1);
    if items.Err? then Err(items.error)
    else if items.value.1 != [] then Err(TrailingBytes)
    else
      var f := front.value.0;
      Ok(Model(f.encoder, f.decoder, f.outputActivation, f.outputBias, items.value.0))
  }

  function WriteMetadata(h: Host, a: Architecture, m: Model): Input {
    WritePreamble(h, a) + (WriteFront(FrontOf(m)) + WriteItems(m.items))
  }

  /** A model of this architecture on this host. */
  ghost predicate ModelOk(h: Host, a: Architecture, m: Model) {
    |h.kernel| <= MAX_STRING_BYTES && FrontOk(a, FrontOf(m)) && ItemsOk(h, Plan(a), m.items)
  }

  /** Every number of the bundle fits its 32 bits. */
  ghost predicate Fits(h: Host, a: Architecture, m: Model) {
    && (forall i :: 0 <= i < |a.sizes| ==> a.sizes[i] < U32_END)
    && |WriteMetadata(h, a, m)| < U32_END && |DenseOf(m.items)| < U32_END
    && |m.encoderEmbedding.values| < U32_END && |m.decoderEmbedding.values| < U32_END
  }

  lemma MetadataWritten(h: Host, a: Architecture, m: Model)
    requires ModelOk(h, a, m) && Fits(h, a, m)
    ensures DecodeParts(h, a, WriteMetadata(h, a, m), DenseOf(m.items), m.encoderEmbedding.values, m.decoderEmbedding.values) == Ok(m)
  {
    var items := WriteItems(m.items);
    PreambleWritten(h, a, WriteFront(FrontOf(m)) + items);
    FrontWritten(a, FrontOf(m), items);
    ItemsWritten(h, Plan(a), m.items, []);
    assert items + [] == items;
  }

  // ---------------------------------------------------------------------------------- the bundle

  /** The four sections; the dense one in bytes. */
  datatype Sections = Sections(metadata: Input, dense: Input, encoder: Input, decoder: Input)

  function WriteLengths(metadata: nat, dense: nat, encoder: nat, decoder: nat): Input {
    Le32(metadata) + (Le32(dense) + (Le32(encoder) + Le32(decoder)))
  }

  function Join(s: Sections): Input {
    BUNDLE_MAGIC + (Le32(VERSION) + (WriteLengths(|s.metadata|, |s.dense| / 4, |s.encoder|, |s.decoder|)
      + (s.metadata + (s.dense + (s.encoder + s.decoder)))))
  }

  function ReadLengths(bytes: Input): Outcome<(nat, nat, nat, nat), Error> {
    var metadata := ReadWord(bytes);
    if metadata.Err? then Err(metadata.error) else
    var dense := ReadWord(metadata.value.1);
    if dense.Err? then Err(dense.error) else
    var encoder := ReadWord(dense.value.1);
    if encoder.Err? then Err(encoder.error) else
    var decoder := ReadWord(encoder.value.1);
    if decoder.Err? then Err(decoder.error)
    else Ok(((metadata.value.0, dense.value.0, encoder.value.0, decoder.value.0), decoder.value.1))
  }

  /** Cuts the four sections out of what follows the header. */
  function Cut(lengths: (nat, nat, nat, nat), bytes: Input): Result<Sections, Error> {
    var metadata := Take(bytes, lengths.0);
    if metadata.None? then Err(Truncated) else
    var dense := Take(metadata.value.1, 4 * lengths.1);
    if dense.None? then Err(Truncated) else
    var encoder := Take(dense.value.1, lengths.2);
    if encoder.None? then Err(Truncated) else
    var decoder := Take(encoder.value.1, lengths.3);
    if decoder.None? then Err(Truncated)
    else if decoder.value.1 != [] then Err(TrailingBytes)
    else Ok(Sections(metadata.value.0, dense.value.0, encoder.value.0, decoder.value.0))
  }

  /** `split_bundle`. */
  function SplitBundle(bytes: Input): Result<Sections, Error> {
    if |bytes| < BUNDLE_HEADER_BYTES || bytes[..8] != BUNDLE_MAGIC then Err(BadMagic) else
    var version := ReadWord(bytes[8..]);
    if version.Err? then Err(version.error)
    else if version.value.0 != VERSION then Err(UnsupportedVersion)
    else
      var lengths := ReadLengths(version.value.1);
      if lengths.Err? then Err(lengths.error) else Cut(lengths.value.0, lengths.value.1)
  }

  predicate SectionsFit(s: Sections) {
    |s.metadata| < U32_END && |s.dense| % 4 == 0 && |s.dense| / 4 < U32_END && |s.encoder| < U32_END && |s.decoder| < U32_END
  }

  lemma LengthsWritten(a: nat, b: nat, c: nat, d: nat, rest: Input)
    requires a < U32_END && b < U32_END && c < U32_END && d < U32_END
    ensures ReadLengths(WriteLengths(a, b, c, d) + rest) == Ok(((a, b, c, d), rest))
  {
    Associates(Le32(a), Le32(b), Le32(c), Le32(d), rest);
    WordWritten(a, Le32(b) + (Le32(c) + (Le32(d) + rest)));
    WordWritten(b, Le32(c) + (Le32(d) + rest));
    WordWritten(c, Le32(d) + rest);
    WordWritten(d, rest);
  }

  lemma CutJoined(s: Sections)
    requires SectionsFit(s)
    ensures Cut((|s.metadata|, |s.dense| / 4, |s.encoder|, |s.decoder|), s.metadata + (s.dense + (s.encoder + s.decoder))) == Ok(s)
  {
    TakeWritten(s.metadata, s.dense + (s.encoder + s.decoder));
    TakeWritten(s.dense, s.encoder + s.decoder);
    TakeWritten(s.encoder, s.decoder);
    TakeWritten(s.decoder, []);
    assert s.decoder + [] == s.decoder;
  }

  /** Splitting gives back what was joined. */
  lemma SplitOfJoin(s: Sections)
    requires SectionsFit(s)
    ensures SplitBundle(Join(s)) == Ok(s)
  {
    var body := s.metadata + (s.dense + (s.encoder + s.decoder));
    var lengths := WriteLengths(|s.metadata|, |s.dense| / 4, |s.encoder|, |s.decoder|) + body;
    assert Join(s)[..8] == BUNDLE_MAGIC && Join(s)[8..] == Le32(VERSION) + lengths;
    WordWritten(VERSION, lengths);
    LengthsWritten(|s.metadata|, |s.dense| / 4, |s.encoder|, |s.decoder|, body);
    CutJoined(s);
  }

  lemma WordRead(bytes: Input)
    requires ReadWord(bytes).Ok?
    ensures ReadWord(bytes).value.0 < U32_END && bytes == Le32(ReadWord(bytes).value.0) + ReadWord(bytes).value.1
  {
    Widths();
    NumberSplits(bytes, 4);
  }

  lemma LengthsRead(bytes: Input)
    requires ReadLengths(bytes).Ok?
    ensures var (l, rest) := ReadLengths(bytes).value;
            && bytes == WriteLengths(l.0, l.1, l.2, l.3) + rest
            && l.0 < U32_END && l.1 < U32_END && l.2 < U32_END && l.3 < U32_END
  {
    var (l, rest) := ReadLengths(bytes).value;
    var second := ReadWord(bytes).value.1;
    var third := ReadWord(second).value.1;
    WordRead(bytes);
    WordRead(second);
    WordRead(third);
    WordRead(ReadWord(third).value.1);
    Associates(Le32(l.0), Le32(l.1), Le32(l.2), Le32(l.3), rest);
  }

  /** Every accepted bundle is its header and its four sections, side by side. */
  lemma SectionsTile(bytes: Input)
    requires SplitBundle(bytes).Ok?
    ensures SectionsFit(SplitBundle(bytes).value) && bytes == Join(SplitBundle(bytes).value)
  {
    var s := SplitBundle(bytes).value;
    TakeSplits(bytes, 8);
    WordRead(bytes[8..]);
    var (l, body) := ReadLengths(ReadWord(bytes[8..]).value.1).value;
    LengthsRead(ReadWord(bytes[8..]).value.1);
    CutTiles(l, body);
  }

  lemma CutTiles(l: (nat, nat, nat, nat), body: Input)
    requires Cut(l, body).Ok?
    ensures var s := Cut(l, body).value;
            && |s.metadata| == l.0 && |s.dense| == 4 * l.1 && |s.encoder| == l.2 && |s.decoder| == l.3
            && body == s.metadata + (s.dense + (s.encoder + s.decoder))
  {
    var s := Cut(l, body).value;
    var dense := body[l.0..];
    var encoder := dense[4 * l.1..];
    TakeSplits(body, l.0);
    TakeSplits(dense, 4 * l.1);
    TakeSplits(encoder, l.2);
    assert encoder[l.2..] == s.decoder;
  }

  /** The dense section as words (`chunks_exact(4)`). */
  function DenseWords(section: Input): seq<nat> {
    Unwords(section[..|section| / 4 * 4], 4, |section| / 4)
  }

  /** `decode`. */
  function Decode(h: Host, a: Architecture, bytes: Input): Result<Model, Error>
    requires a.Valid()
  {
    var split := SplitBundle(bytes);
    if split.Err? then Err(split.error)
    else
      var s := split.value;
      DecodeParts(h, a, s.metadata, DenseWords(s.dense), s.encoder, s.decoder)
  }

  function SectionsOf(h: Host, a: Architecture, m: Model): Sections {
    Sections(WriteMetadata(h, a, m), Words(DenseOf(m.items), 4), m.encoderEmbedding.values, m.decoderEmbedding.values)
  }

  /** The encoded model. */
  function Bundle(h: Host, a: Architecture, m: Model): Input {
    Join(SectionsOf(h, a, m))
  }

  ghost predicate WordsOk(items: seq<Item>) {
    forall i :: 0 <= i < |items| ==> forall k :: 0 <= k < |PackedWords(items[i])| ==> PackedWords(items[i])[k] < U32_END
  }

  lemma {:induction false} DenseIsWords(items: seq<Item>)
    requires WordsOk(items)
    ensures forall k :: 0 <= k < |DenseOf(items)| ==> DenseOf(items)[k] < U32_END
  {
    if items != [] { DenseIsWords(items[..|items| - 1]); }
  }

  lemma DenseWritten(items: seq<Item>)
    requires WordsOk(items)
    ensures |Words(DenseOf(items), 4)| == 4 * |DenseOf(items)| && DenseWords(Words(DenseOf(items), 4)) == DenseOf(items)
  {
    var dense := DenseOf(items);
    Widths();
    DenseIsWords(items);
    UnwordsOfWords(dense, 4);
    var section := Words(dense, 4);
    assert section[..|section| / 4 * 4] == section;
  }

  lemma DecodeSections(h: Host, a: Architecture, s: Sections, dense: seq<nat>, r: Result<Model, Error>)
    requires a.Valid() && SplitBundle(Join(s)) == Ok(s) && DenseWords(s.dense) == dense
    requires DecodeParts(h, a, s.metadata, dense, s.encoder, s.decoder) == r
    ensures Decode(h, a, Join(s)) == r
  {
  }

  /** Round trip: decoding an encoded model gives the model back, for any number of layers. */
  lemma DecodeOfEncode(h: Host, a: Architecture, m: Model)
    requires ModelOk(h, a, m) && Fits(h, a, m) && WordsOk(m.items)
    ensures Decode(h, a, Bundle(h, a, m)) == Ok(m)
  {
    DenseWritten(m.items);
    SplitOfJoin(SectionsOf(h, a, m));
    MetadataWritten(h, a, m);
    DecodeSections(h, a, SectionsOf(h, a, m), DenseOf(m.items), Ok(m));
  }
}
