/** The writer and reader of the Worker bundle as they run, tied to the functions of `WorkerBundle`. */
module WorkerCodec {
  import opened Base
  import opened Bytes
  import opened Codec
  import Layout
  import opened WorkerBundle

  // ---------------------------------------------------------------------------------- what can be written

  predicate VectorFits(values: Floats) {
    |values| < U32_END && forall i :: 0 <= i < |values| ==> Finite(values[i])
  }

  predicate LinearFits(l: Linear, start: nat) {
    && |l.name| <= MAX_STRING_BYTES && l.input < U32_END && l.output < U32_END
    && Finite(l.activation) && Finite(l.weight) && (l.bias.Some? ==> VectorFits(l.bias.value))
    && start < U32_END && |l.words| < U32_END
  }

  predicate MatrixFits(m: Matrix) {
    m.rows < U32_END && m.cols < U32_END && VectorFits(m.values)
  }

  predicate ItemFits(item: Item, start: nat) {
    if item.LinearItem? then LinearFits(item.linear, start) else MatrixFits(item.matrix)
  }

  predicate EmbeddingFits(e: Embedding) {
    e.rows < U32_END && e.cols < U32_END && Finite(e.multiplier) && |e.values| < U32_END
  }

  ghost predicate ItemsFit(items: seq<Item>) {
    forall i :: 0 <= i < |items| ==> ItemFits(items[i], |DenseOf(items[..i])|)
  }

  predicate HeadFits(h: Host, a: Architecture) {
    |h.kernel| <= MAX_STRING_BYTES && forall i :: 0 <= i < |a.sizes| ==> a.sizes[i] < U32_END
  }

  predicate FrontFits(f: Front) {
    EmbeddingFits(f.encoder) && EmbeddingFits(f.decoder) && Finite(f.outputActivation) && VectorFits(f.outputBias)
  }

  /** Everything the encoder checks. */
  ghost predicate Encodable(h: Host, a: Architecture, m: Model) {
    && HeadFits(h, a) && FrontFits(FrontOf(m)) && ItemsFit(m.items)
    && |WriteMetadata(h, a, m)| < U32_END && |DenseOf(m.items)| < U32_END
  }

  lemma OneFits(h: Host, slot: Slot, item: Item, start: nat)
    requires ItemOk(h, slot, item) && start + |PackedWords(item)| < U32_END
    ensures ItemFits(item, start)
  {
  }

  lemma ItemsOkFit(h: Host, plan: seq<Slot>, items: seq<Item>)
    requires ItemsOk(h, plan, items) && |DenseOf(items)| < U32_END
    ensures ItemsFit(items)
  {
    forall i | 0 <= i < |items| ensures ItemFits(items[i], |DenseOf(items[..i])|) {
      DenseRanges(items, i);
      OneFits(h, plan[i], items[i], |DenseOf(items[..i])|);
    }
  }

  lemma FrontOkFits(a: Architecture, f: Front)
    requires FrontOk(a, f) && (forall i :: 0 <= i < |a.sizes| ==> a.sizes[i] < U32_END)
    requires |f.encoder.values| < U32_END && |f.decoder.values| < U32_END
    ensures FrontFits(f)
  {
  }

  /** A model of the right shape can be encoded exactly when its sections fit their 32-bit lengths. */
  lemma ModelsFit(h: Host, a: Architecture, m: Model)
    requires ModelOk(h, a, m)
    ensures Fits(h, a, m) <==> Encodable(h, a, m)
  {
    if Fits(h, a, m) {
      ItemsOkFit(h, Plan(a), m.items);
      FrontOkFits(a, FrontOf(m));
    }
  }

  lemma Appended(o: Input, a: Input, b: Input, c: Input, d: Input)
    ensures o + a + b + c + d == o + (a + (b + (c + d)))
    ensures o + a + b + c == o + (a + (b + c))
    ensures o + a + b == o + (a + b)
  {
  }

  class Writer {
    var bytes: Input
    var dense: seq<nat>

    constructor ()
      ensures bytes == [] && dense == []
    {
      bytes, dense := [], [];
    }

    method Usize(value: nat) returns (ok: bool)
      modifies this
      ensures dense == old(dense) && (ok <==> value < U32_END) && (ok ==> bytes == old(bytes) + Le32(value))
    {
      if value >= U32_END { return false; }
      bytes := bytes + Le32(value);
      return true;
    }

    method F32(bits: nat) returns (ok: bool)
      modifies this
      ensures dense == old(dense) && (ok <==> Finite(bits)) && (ok ==> bytes == old(bytes) + Le32(bits))
    {
      if !Finite(bits) { return false; }
      bytes := bytes + Le32(bits);
      return true;
    }

    method Str(text: Input) returns (ok: bool)
      modifies this
      ensures dense == old(dense) && (ok <==> |text| <= MAX_STRING_BYTES) && (ok ==> bytes == old(bytes) + WriteString(text))
    {
      if |text| > MAX_STRING_BYTES { return false; }
      Appended(bytes, Le32(|text|), text, [], []);
      ok := Usize(|text|);
      if !ok { return; }
      bytes := bytes + text;
    }

    method Sizes(a: nat, b: nat) returns (ok: bool)
      modifies this
      ensures dense == old(dense) && (ok <==> a < U32_END && b < U32_END) && (ok ==> bytes == old(bytes) + WriteSizes(a, b))
    {
      Appended(bytes, Le32(a), Le32(b), [], []);
      ok := Usize(a);
      if !ok { return; }
      ok := Usize(b);
    }

    method Vector(values: Floats) returns (ok: bool)
      modifies this
      ensures dense == old(dense) && (ok <==> VectorFits(values)) && (ok ==> bytes == old(bytes) + WriteVector(values))
    {
      ok := Usize(|values|);
      if !ok { return; }
      ghost var whole := bytes + WriteWords(values);
      Appended(old(bytes), Le32(|values|), WriteWords(values), [], []);
      for k := 0 to |values|
        invariant dense == old(dense) && bytes + WriteFrom(WordWriter(), values, k) == whole
        invariant forall i :: 0 <= i < k ==> Finite(values[i])
      {
        assert bytes + WriteFrom(WordWriter(), values, k) == bytes + Le32(values[k]) + WriteFrom(WordWriter(), values, k + 1);
        ok := F32(values[k]);
        if !ok { return; }
      }
    }

    method Bias(bias: Option<Floats>) returns (ok: bool)
      modifies this
      ensures dense == old(dense) && (ok <==> bias.None? || VectorFits(bias.value)) && (ok ==> bytes == old(bytes) + WriteBias(bias))
    {
      if bias.None? { ok := Usize(U32_END - 1); } else { ok := Vector(bias.value); }
    }

    /** An operator: its description, and its words at the end of the dense section. */
    method LinearOp(l: Linear) returns (ok: bool)
      modifies this
      ensures ok <==> LinearFits(l, |old(dense)|)
      ensures ok ==> bytes == old(bytes) + WriteLinear(l, |old(dense)|) && dense == old(dense) + l.words
    {
      ghost var scales := WriteScales(ScalesOf(l));
      Appended(bytes, WriteString(l.name), WriteSizes(l.input, l.output), scales, WriteSizes(|dense|, |l.words|));
      ok := Str(l.name);
      if !ok { return; }
      ok := Sizes(l.input, l.output);
      if !ok { return; }
      ok := Scales(l);
      if !ok { return; }
      ok := Sizes(|dense|, |l.words|);
      if !ok { return; }
      dense := dense + l.words;
    }

    method Scales(l: Linear) returns (ok: bool)
      modifies this
      ensures dense == old(dense)
      ensures ok <==> Finite(l.activation) && Finite(l.weight) && (l.bias.Some? ==> VectorFits(l.bias.value))
      ensures ok ==> bytes == old(bytes) + WriteScales(ScalesOf(l))
    {
      Appended(bytes, Le32(l.activation), Le32(l.weight), WriteBias(l.bias), []);
      ok := F32(l.activation);
      if !ok { return; }
      ok := F32(l.weight);
      if !ok { return; }
      ok := Bias(l.bias);
    }

    method MatrixOp(m: Matrix) returns (ok: bool)
      modifies this
      ensures dense == old(dense) && (ok <==> MatrixFits(m)) && (ok ==> bytes == old(bytes) + WriteMatrix(m))
    {
      Appended(bytes, WriteSizes(m.rows, m.cols), WriteVector(m.values), [], []);
      ok := Sizes(m.rows, m.cols);
      if !ok { return; }
      ok := Vector(m.values);
    }

    method One(item: Item) returns (ok: bool)
      modifies this
      ensures ok <==> ItemFits(item, |old(dense)|)
      ensures ok ==> bytes == old(bytes) + WriteItem(item, |old(dense)|) && dense == old(dense) + PackedWords(item)
    {
      if item.LinearItem? { ok := LinearOp(item.linear); } else { ok := MatrixOp(item.matrix); }
    }

    method Operators(items: seq<Item>) returns (ok: bool)
      requires dense == []
      modifies this
      ensures ok <==> ItemsFit(items)
      ensures ok ==> bytes == old(bytes) + WriteItems(items) && dense == DenseOf(items)
    {
      ghost var whole := bytes + WriteItems(items);
      assert items[..0] == [];
      for k := 0 to |items|
        invariant WrittenTo(items, k, bytes, dense, whole)
      {
        ghost var before, start := bytes, dense;
        ok := One(items[k]);
        if !ok { return; }
        BytesOne(items, k, before, |start|, whole);
        WriteOne(items, k, before, start, whole, bytes, dense);
      }
      assert items[..|items|] == items;
      return true;
    }
  }

  /** Magic, version, kernel and architecture. */
  method WriteHead(w: Writer, h: Host, a: Architecture) returns (ok: bool)
    requires w.bytes == [] && w.dense == []
    modifies w
    ensures w.dense == [] && (ok <==> HeadFits(h, a))
    ensures ok ==> w.bytes == WritePreamble(h, a)
  {
    Appended([], METADATA_MAGIC, Le32(VERSION), WriteString(h.kernel), WriteArchitecture(a));
    w.bytes := w.bytes + METADATA_MAGIC;
    ok := w.Usize(VERSION);
    ok := w.Str(h.kernel);
    if !ok { return; }
    ghost var before := w.bytes;
    ok := WriteArchitectureBlock(w, a);
    assert [] + METADATA_MAGIC == METADATA_MAGIC;
  }

  method WriteArchitectureBlock(w: Writer, a: Architecture) returns (ok: bool)
    modifies w
    ensures w.dense == old(w.dense) && (ok <==> forall i :: 0 <= i < |a.sizes| ==> a.sizes[i] < U32_END)
    ensures ok ==> w.bytes == old(w.bytes) + WriteArchitecture(a)
  {
    ghost var whole := w.bytes + WriteWords(a.sizes);
    Appended(w.bytes, WriteWords(a.sizes), Le32(a.eosId), Le32(a.unkId), []);
    for k := 0 to |a.sizes|
      invariant w.dense == old(w.dense) && w.bytes + WriteFrom(WordWriter(), a.sizes, k) == whole
      invariant forall i :: 0 <= i < k ==> a.sizes[i] < U32_END
    {
      assert w.bytes + WriteFrom(WordWriter(), a.sizes, k) == w.bytes + Le32(a.sizes[k]) + WriteFrom(WordWriter(), a.sizes, k + 1);
      ok := w.Usize(a.sizes[k]);
      if !ok { return; }
    }
    w.bytes := w.bytes + Le32(a.eosId);
    w.bytes := w.bytes + Le32(a.unkId);
    return true;
  }

  method WriteEmbeddingHeader(w: Writer, e: Embedding) returns (ok: bool)
    modifies w
    ensures w.dense == old(w.dense) && (ok <==> EmbeddingFits(e)) && (ok ==> w.bytes == old(w.bytes) + WriteEmbedding(e))
  {
    Appended(w.bytes, WriteSizes(e.rows, e.cols), Le32(e.multiplier), Le32(|e.values|), []);
    ok := w.Sizes(e.rows, e.cols);
    if !ok { return; }
    ok := w.F32(e.multiplier);
    if !ok { return; }
    ok := w.Usize(|e.values|);
  }

  /** Embeddings, output scale and output bias. */
  method WriteFrontPart(w: Writer, f: Front) returns (ok: bool)
    modifies w
    ensures w.dense == old(w.dense)
    ensures ok <==> FrontFits(f)
    ensures ok ==> w.bytes == old(w.bytes) + WriteFront(f)
  {
    Appended(w.bytes, WriteEmbedding(f.encoder), WriteEmbedding(f.decoder), Le32(f.outputActivation), WriteVector(f.outputBias));
    ok := WriteEmbeddingHeader(w, f.encoder);
    if !ok { return; }
    ok := WriteEmbeddingHeader(w, f.decoder);
    if !ok { return; }
    ok := w.F32(f.outputActivation);
    if !ok { return; }
    ok := w.Vector(f.outputBias);
  }

  method DenseBytes(dense: seq<nat>) returns (bytes: Input)
    ensures bytes == Words(dense, 4) && |bytes| == 4 * |dense|
  {
    bytes := [];
    for k := 0 to |dense|
      invariant |bytes| == 4 * k && bytes == Layout.FlatTo(Cells(dense, 4), k)
    {
      bytes := bytes + Le32(dense[k]);
    }
  }

  method WriteAll(h: Host, a: Architecture, m: Model) returns (ok: bool, metadata: Input, dense: seq<nat>)
    ensures ok <==> HeadFits(h, a) && FrontFits(FrontOf(m)) && ItemsFit(m.items)
    ensures ok ==> metadata == WriteMetadata(h, a, m) && dense == DenseOf(m.items)
  {
    metadata, dense := [], [];
    var w := new Writer();
    ok := WriteHead(w, h, a);
    if !ok { return; }
    Appended(w.bytes, WriteFront(FrontOf(m)), WriteItems(m.items), [], []);
    ok := WriteFrontPart(w, FrontOf(m));
    if !ok { return; }
    ok := w.Operators(m.items);
    metadata, dense := w.bytes, w.dense;
  }

  /** `encode`: the bundle, exactly when everything can be written. */
  method Encode(h: Host, a: Architecture, m: Model) returns (r: Option<Input>)
    ensures r.Some? <==> Encodable(h, a, m)
    ensures r.Some? ==> r.value == Bundle(h, a, m)
  {
    var ok, metadata, dense := WriteAll(h, a, m);
    if !ok || |metadata| >= U32_END || |dense| >= U32_END { return None; }
    if |m.encoderEmbedding.values| >= U32_END || |m.decoderEmbedding.values| >= U32_END { return None; }
    var bytes := DenseBytes(dense);
    r := JoinSections(metadata, |dense|, bytes, m.encoderEmbedding.values, m.decoderEmbedding.values);
  }

  method JoinSections(metadata: Input, words: nat, dense: Input, encoder: Input, decoder: Input) returns (r: Option<Input>)
    requires |dense| == 4 * words
    ensures r == Some(Join(Sections(metadata, dense, encoder, decoder)))
  {
    var lengths := Le32(|metadata|) + (Le32(words) + (Le32(|encoder|) + Le32(|decoder|)));
    var bundle := BUNDLE_MAGIC + Le32(VERSION) + lengths + metadata + dense + encoder + decoder;
    Appended(BUNDLE_MAGIC + Le32(VERSION) + lengths, metadata, dense, encoder, decoder);
    Appended(BUNDLE_MAGIC, Le32(VERSION), lengths, metadata + (dense + (encoder + decoder)), []);
    return Some(bundle);
  }

  /** The first `k` operators are written; with the others behind them, the output is whole. */
  ghost predicate WrittenTo(items: seq<Item>, k: nat, bytes: Input, dense: seq<nat>, whole: Input) {
    && k <= |items| && dense == DenseOf(items[..k]) && bytes + WriteFrom(ItemWriter(), items, k) == whole
    && forall i :: 0 <= i < k ==> ItemFits(items[i], |DenseOf(items[..i])|)
  }

  lemma BytesOne(items: seq<Item>, k: nat, bytes: Input, start: nat, whole: Input)
    requires k < |items| && start == |DenseOf(items[..k])| && bytes + WriteFrom(ItemWriter(), items, k) == whole
    ensures bytes + WriteItem(items[k], start) + WriteFrom(ItemWriter(), items, k + 1) == whole
  {
    Appended(bytes, WriteItem(items[k], start), WriteFrom(ItemWriter(), items, k + 1), [], []);
  }

  lemma WriteOne(items: seq<Item>, k: nat, bytes: Input, dense: seq<nat>, whole: Input, bytes': Input, dense': seq<nat>)
    requires WrittenTo(items, k, bytes, dense, whole) && k < |items| && ItemFits(items[k], |dense|)
    requires bytes' + WriteFrom(ItemWriter(), items, k + 1) == whole && dense' == dense + PackedWords(items[k])
    ensures WrittenTo(items, k + 1, bytes', dense', whole)
  {
    assert items[..k + 1] == items[..k] + [items[k]];
    DenseOne(items[..k], items[k]);
  }

  // ---------------------------------------------------------------------------------- the reader

  /** A read without a value. */
  ghost predicate Leaves(expected: Result<Input, Error>, r: Result<(), Error>, rest: Input) {
    if expected.Err? then r == Err(expected.error) else r == Ok(()) && rest == expected.value
  }

  method NextWord(reader: Reader) returns (r: Result<nat, Error>)
    requires reader.Valid()
    modifies reader
    ensures reader.Valid() && Follows(ReadWord(old(reader.Rest())), r, reader.Rest())
  {
    var word := reader.ReadNumber(4);
    return if word.None? then Err(Truncated) else Ok(word.value);
  }

  method NextFloat(reader: Reader) returns (r: Result<nat, Error>)
    requires reader.Valid()
    modifies reader
    ensures reader.Valid() && Follows(ReadFloat(old(reader.Rest())), r, reader.Rest())
  {
    r := NextWord(reader);
    if r.Ok? && !Finite(r.value) { return Err(NotFinite); }
  }

  method NextPositive(reader: Reader) returns (r: Result<nat, Error>)
    requires reader.Valid()
    modifies reader
    ensures reader.Valid() && Follows(ReadPositive(old(reader.Rest())), r, reader.Rest())
  {
    r := NextFloat(reader);
    if r.Ok? && !FinitePositive(r.value) { return Err(NotPositive); }
  }

  method NextString(reader: Reader, expected: Input, mismatch: Error) returns (r: Result<(), Error>)
    requires reader.Valid()
    modifies reader
    ensures reader.Valid() && Leaves(ReadString(expected, mismatch, old(reader.Rest())), r, reader.Rest())
  {
    var length := NextWord(reader);
    if length.Err? { return Err(length.error); }
    if length.value > MAX_STRING_BYTES { return Err(StringTooLong); }
    var text := reader.TakeBytes(length.value);
    if text.None? { return Err(Truncated); }
    if text.value != expected { return Err(mismatch); }
    return Ok(());
  }

  method NextSizes(reader: Reader, a: nat, b: nat) returns (r: Result<(), Error>)
    requires reader.Valid()
    modifies reader
    ensures reader.Valid() && Leaves(ReadSizes(a, b, old(reader.Rest())), r, reader.Rest())
  {
    var first := NextWord(reader);
    if first.Err? { return Err(first.error); }
    var second := NextWord(reader);
    if second.Err? { return Err(second.error); }
    if first.value != a || second.value != b { return Err(ShapeMismatch); }
    return Ok(());
  }

  method NextFloats(reader: Reader, n: nat) returns (r: Result<Floats, Error>)
    requires reader.Valid()
    modifies reader
    ensures reader.Valid() && Follows(ReadFloats(n, old(reader.Rest())), r, reader.Rest())
  {
    ghost var all := ReadFrom(FloatStep(), n, [], reader.Rest());
    var floats: Floats := [];
    while |floats| < n
      invariant reader.Valid() && |floats| <= n && ReadFrom(FloatStep(), n, floats, reader.Rest()) == all
    {
      var float := NextFloat(reader);
      if float.Err? { return Err(float.error); }
      floats := floats + [float.value];
    }
    return Ok(floats);
  }

  method NextVector(reader: Reader, expected: nat) returns (r: Result<Floats, Error>)
    requires reader.Valid()
    modifies reader
    ensures reader.Valid() && Follows(ReadVector(expected, old(reader.Rest())), r, reader.Rest())
  {
    var length := NextWord(reader);
    if length.Err? { return Err(length.error); }
    if length.value != expected { return Err(WrongLength); }
    r := NextFloats(reader, expected);
  }

  method NextBias(reader: Reader, output: nat) returns (r: Result<Option<Floats>, Error>)
    requires reader.Valid()
    modifies reader
    ensures reader.Valid() && Follows(ReadBias(output, old(reader.Rest())), r, reader.Rest())
  {
    var length := NextWord(reader);
    if length.Err? { return Err(length.error); }
    if length.value == U32_END - 1 { return Ok(None); }
    if length.value != output { return Err(WrongLength); }
    var floats := NextFloats(reader, output);
    return if floats.Err? then Err(floats.error) else Ok(Some(floats.value));
  }

  method NextScales(reader: Reader, output: nat) returns (r: Result<Scales, Error>)
    requires reader.Valid()
    modifies reader
    ensures reader.Valid() && Follows(ReadScales(output, old(reader.Rest())), r, reader.Rest())
  {
    var activation := NextPositive(reader);
    if activation.Err? { return Err(activation.error); }
    var weight := NextPositive(reader);
    if weight.Err? { return Err(weight.error); }
    var bias := NextBias(reader, output);
    return if bias.Err? then Err(bias.error) else Ok(Scales(activation.value, weight.value, bias.value));
  }

  method NextLinear(reader: Reader, h: Host, dense: seq<nat>, slot: Slot) returns (r: Result<Item, Error>)
    requires reader.Valid() && slot.LinearSlot?
    modifies reader
    ensures reader.Valid() && Follows(ReadLinear(h, dense, slot, old(reader.Rest())), r, reader.Rest())
  {
    var name := NextString(reader, slot.name, OutOfOrder);
    if name.Err? { return Err(name.error); }
    var sizes := NextSizes(reader, slot.input, slot.output);
    if sizes.Err? { return Err(sizes.error); }
    var scales := NextScales(reader, slot.output);
    if scales.Err? { return Err(scales.error); }
    var start := NextWord(reader);
    if start.Err? { return Err(start.error); }
    var words := NextWord(reader);
    if words.Err? { return Err(words.error); }
    r := Restore(h, dense, slot, scales.value, start.value, words.value);
  }

  method NextItem(reader: Reader, h: Host, dense: seq<nat>, slot: Slot) returns (r: Result<Item, Error>)
    requires reader.Valid()
    modifies reader
    ensures reader.Valid() && Follows(ReadItem(h, dense, slot, old(reader.Rest())), r, reader.Rest())
  {
    if slot.LinearSlot? {
      r := NextLinear(reader, h, dense, slot);
    } else {
      var sizes := NextSizes(reader, slot.rows, slot.cols);
      if sizes.Err? { return Err(sizes.error); }
      var values := NextVector(reader, Area(slot.rows, slot.cols));
      return if values.Err? then Err(values.error) else Ok(MatrixItem(Matrix(slot.rows, slot.cols, values.value)));
    }
  }

  method NextItems(reader: Reader, h: Host, dense: seq<nat>, plan: seq<Slot>) returns (r: Result<seq<Item>, Error>)
    requires reader.Valid()
    modifies reader
    ensures reader.Valid() && Follows(ReadItems(h, dense, plan, old(reader.Rest())), r, reader.Rest())
  {
    ghost var all := ReadFrom(ItemStep(h, dense, plan), |plan|, [], reader.Rest());
    var items: seq<Item> := [];
    while |items| < |plan|
      invariant reader.Valid() && |items| <= |plan| && ReadFrom(ItemStep(h, dense, plan), |plan|, items, reader.Rest()) == all
    {
      var item := NextItem(reader, h, dense, plan[|items|]);
      if item.Err? { return Err(item.error); }
      items := items + [item.value];
    }
    return Ok(items);
  }

  method NextEmbedding(reader: Reader, rows: nat, cols: nat, values: seq<Byte>) returns (r: Result<Embedding, Error>)
    requires reader.Valid()
    modifies reader
    ensures reader.Valid() && Follows(ReadEmbedding(rows, cols, values, old(reader.Rest())), r, reader.Rest())
  {
    var sizes := NextSizes(reader, rows, cols);
    if sizes.Err? { return Err(sizes.error); }
    var multiplier := NextPositive(reader);
    if multiplier.Err? { return Err(multiplier.error); }
    var length := NextWord(reader);
    if length.Err? { return Err(length.error); }
    if length.value != Area(rows, cols) || |values| != Area(rows, cols) { return Err(WrongLength); }
    return Ok(Embedding(rows, cols, multiplier.value, values));
  }

  method NextArchitecture(reader: Reader, a: Architecture) returns (r: Result<(), Error>)
    requires reader.Valid()
    modifies reader
    ensures reader.Valid() && Leaves(ReadArchitecture(a, old(reader.Rest())), r, reader.Rest())
  {
    ghost var all := ReadFrom(WordStep(), 8, [], reader.Rest());
    var sizes: seq<nat> := [];
    while |sizes| < 8
      invariant reader.Valid() && |sizes| <= 8 && ReadFrom(WordStep(), 8, sizes, reader.Rest()) == all
    {
      var size := NextWord(reader);
      if size.Err? { return Err(size.error); }
      sizes := sizes + [size.value];
    }
    var eos := NextWord(reader);
    if eos.Err? { return Err(eos.error); }
    var unk := NextWord(reader);
    if unk.Err? { return Err(unk.error); }
    if sizes != a.sizes || eos.value != a.eosId || unk.value != a.unkId { return Err(ArchitectureMismatch); }
    return Ok(());
  }

  method NextPreamble(reader: Reader, h: Host, a: Architecture) returns (r: Result<(), Error>)
    requires reader.Valid()
    modifies reader
    ensures reader.Valid() && Leaves(ReadPreamble(h, a, old(reader.Rest())), r, reader.Rest())
  {
    var magic := reader.TakeBytes(8);
    if magic.None? { return Err(Truncated); }
    if magic.value != METADATA_MAGIC { return Err(BadMagic); }
    var version := NextWord(reader);
    if version.Err? { return Err(version.error); }
    if version.value != VERSION { return Err(UnsupportedVersion); }
    r := NextString(reader, h.kernel, WrongKernel);
    if r.Err? { return; }
    r := NextArchitecture(reader, a);
  }

  method NextFront(reader: Reader, a: Architecture, encoderValues: seq<Byte>, decoderValues: seq<Byte>) returns (r: Result<Front, Error>)
    requires reader.Valid() && a.Valid()
    modifies reader
    ensures reader.Valid() && Follows(ReadFront(a, encoderValues, decoderValues, old(reader.Rest())), r, reader.Rest())
  {
    var encoder := NextEmbedding(reader, a.SourceVocab(), a.ModelDim(), encoderValues);
    if encoder.Err? { return Err(encoder.error); }
    var decoder := NextEmbedding(reader, a.TargetVocab(), a.ModelDim(), decoderValues);
    if decoder.Err? { return Err(decoder.error); }
    var activation := NextPositive(reader);
    if activation.Err? { return Err(activation.error); }
    var bias := NextVector(reader, a.TargetVocab());
    return if bias.Err? then Err(bias.error) else Ok(Front(encoder.value, decoder.value, activation.value, bias.value));
  }

  method ReadParts(h: Host, a: Architecture, metadata: Input, dense: seq<nat>, encoderValues: seq<Byte>, decoderValues: seq<Byte>)
    returns (r: Result<Model, Error>)
    requires a.Valid()
    ensures r == DecodeParts(h, a, metadata, dense, encoderValues, decoderValues)
  {
    var reader := new Reader(metadata);
    var preamble := NextPreamble(reader, h, a);
    if preamble.Err? { return Err(preamble.error); }
    var front := NextFront(reader, a, encoderValues, decoderValues);
    if front.Err? { return Err(front.error); }
    var items := NextItems(reader, h, dense, Plan(a));
    if items.Err? { return Err(items.error); }
    if reader.position != |reader.bytes| { return Err(TrailingBytes); }
    var f := front.value;
    return Ok(Model(f.encoder, f.decoder, f.outputActivation, f.outputBias, items.value));
  }

  /** `decode`: what it accepts is exactly its header and four sections, and an encoded model comes back. */
  method DecodeBundle(h: Host, a: Architecture, bytes: Input) returns (r: Result<Model, Error>)
    requires a.Valid()
    ensures r == Decode(h, a, bytes)
    ensures r.Ok? ==> SplitBundle(bytes).Ok? && bytes == Join(SplitBundle(bytes).value)
  {
    var split := SplitBundle(bytes);
    if split.Err? { return Err(split.error); }
    SectionsTile(bytes);
    var s := split.value;
    r := ReadParts(h, a, s.metadata, DenseWords(s.dense), s.encoder, s.decoder);
  }

  /** Encoding and decoding: whatever `Encode` produces for a well-shaped model, `DecodeBundle` reads back. */
  method RoundTrip(h: Host, a: Architecture, m: Model) returns (bundle: Option<Input>, back: Result<Model, Error>)
    requires ModelOk(h, a, m) && WordsOk(m.items)
    ensures bundle.Some? <==> Fits(h, a, m)
    ensures bundle.Some? ==> back == Ok(m)
  {
    ModelsFit(h, a, m);
    bundle := Encode(h, a, m);
    if bundle.None? { return bundle, Err(Truncated); }
    DecodeOfEncode(h, a, m);
    back := DecodeBundle(h, a, bundle.value);
  }
}
