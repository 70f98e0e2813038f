/**
 Marian binary format, version 1 (`crates/marian-cpu/src/legacy_q8.rs`): the strict parser and the writer are
 inverse to each other, so every accepted byte is accounted for.
 */
module MarianBinary {
  import opened Base
  import opened Bytes
  import opened Layout
  import opened Distinct
  import opened Codec

  const VERSION: nat := 1
  const MAXIMUM_FILE_BYTES: nat := 128 * 1024 * 1024
  const MAXIMUM_TENSORS: nat := 4096
  const MAXIMUM_NAME_BYTES: nat := 16 * 1024
  const MAXIMUM_RANK: nat := 8
  const DATA_ALIGNMENT: nat := 256
  const USIZE_END: nat := 0x1_0000_0000_0000_0000

  datatype Error =
    | TooLarge | Truncated | UnsupportedVersion | TensorCount | UnsupportedType | NameLength | Rank | DataLength
    | NameNotTerminated | NameNotUtf8 | EmptyName | DuplicateName | ShapeDimension | ElementOverflow
    | PaddingNotZero | Misaligned | LengthOverflow | RecordLength | RecordPadding | NotFinite | ContainsMinimum | Multiplier | TrailingBytes

  datatype Kind = Int8 | Float32 | Intgemm8

  type Name = seq<Byte>
  type Utf8Check = Name -> bool

  datatype Header = Header(nameLength: nat, kind: Kind, rank: nat, dataLength: nat)

  /** Values as stored: i8 as bytes, f32 as bit patterns. */
  datatype Data =
    | Int8Data(bytes: seq<Byte>)
    | Float32Data(floats: seq<nat>)
    | Intgemm8Data(values: seq<Byte>, multiplier: nat)

  // ---------------------------------------------------------------------------------- headers

  function TypeCode(kind: Kind): nat {
    match kind
    case Int8 => 0x0101
    case Float32 => 0x0404
    case Intgemm8 => 0x4101
  }

  function KindOf(code: nat): Option<Kind> {
    if code == 0x0101 then Some(Int8)
    else if code == 0x0404 then Some(Float32)
    else if code == 0x4101 then Some(Intgemm8)
    else None
  }

  predicate HeaderOk(h: Header) {
    2 <= h.nameLength <= MAXIMUM_NAME_BYTES && 0 < h.rank <= MAXIMUM_RANK && 0 < h.dataLength <= MAXIMUM_FILE_BYTES
  }

  function CheckHeader(h: Header): Option<Error> {
    if !(2 <= h.nameLength <= MAXIMUM_NAME_BYTES) then Some(NameLength)
    else if h.rank == 0 || h.rank > MAXIMUM_RANK then Some(Rank)
    else if h.dataLength == 0 || h.dataLength > MAXIMUM_FILE_BYTES then Some(DataLength)
    else None
  }

  function ReadHeader(bytes: Input): Outcome<Header, Error> {
    var name := Number(bytes, 8);
    if name.None? then Err(Truncated) else
    var code := Number(name.value.1, 8);
    if code.None? then Err(Truncated) else
    if KindOf(code.value.0).None? then Err(UnsupportedType) else
    var rank := Number(code.value.1, 8);
    if rank.None? then Err(Truncated) else
    var data := Number(rank.value.1, 8);
    if data.None? then Err(Truncated) else
    var header := Header(name.value.0, KindOf(code.value.0).value, rank.value.0, data.value.0);
    if CheckHeader(header).Some? then Err(CheckHeader(header).value) else Ok((header, data.value.1))
  }

  function WriteHeader(h: Header): Input {
    Le64(h.nameLength) + (Le64(TypeCode(h.kind)) + (Le64(h.rank) + Le64(h.dataLength)))
  }

  lemma Joined(a: Input, b: Input, c: Input, d: Input, e: Input)
    ensures (a + (b + (c + d))) + e == a + (b + (c + (d + e)))
  {
  }

  lemma HeaderWritten(h: Header, rest: Input)
    requires HeaderOk(h)
    ensures ReadHeader(WriteHeader(h) + rest) == Ok((h, rest))
  {
    Widths();
    var third := Le64(h.dataLength) + rest;
    var second := Le64(h.rank) + third;
    var first := Le64(TypeCode(h.kind)) + second;
    Joined(Le64(h.nameLength), Le64(TypeCode(h.kind)), Le64(h.rank), Le64(h.dataLength), rest);
    NumberWritten(h.nameLength, 8, first);
    NumberWritten(TypeCode(h.kind), 8, second);
    NumberWritten(h.rank, 8, third);
    NumberWritten(h.dataLength, 8, rest);
  }

  lemma HeaderRead(bytes: Input)
    requires ReadHeader(bytes).Ok?
    ensures HeaderOk(ReadHeader(bytes).value.0)
    ensures bytes == WriteHeader(ReadHeader(bytes).value.0) + ReadHeader(bytes).value.1
  {
    var first := bytes[8..];
    var second := first[8..];
    var third := second[8..];
    NumberSplits(bytes, 8);
    NumberSplits(first, 8);
    NumberSplits(second, 8);
    NumberSplits(third, 8);
    var h := ReadHeader(bytes).value.0;
    Joined(Le64(h.nameLength), Le64(TypeCode(h.kind)), Le64(h.rank), Le64(h.dataLength), third[8..]);
  }

  function HeaderStep(): Step<Header, Error> {
    (done: seq<Header>, bytes: Input) => ReadHeader(bytes)
  }

  function HeaderWriter(): Writer<Header> {
    (done: seq<Header>, h: Header) => WriteHeader(h)
  }

  function HeaderCheck(): Check<Header> {
    (done: seq<Header>, h: Header) => HeaderOk(h)
  }

  lemma HeadersInvert(n: nat)
    ensures Inverse(HeaderStep(), HeaderWriter(), HeaderCheck(), n)
  {
    forall done: seq<Header>, h: Header, rest: Input | |done| < n && HeaderCheck()(done, h)
      ensures Undoes(HeaderStep(), HeaderWriter(), done, h, rest)
    {
      HeaderWritten(h, rest);
    }
    forall done: seq<Header>, bytes: Input | |done| < n && HeaderStep()(done, bytes).Ok?
      ensures Accepts(HeaderStep(), HeaderWriter(), HeaderCheck(), done, bytes)
    {
      HeaderRead(bytes);
    }
  }

  // ---------------------------------------------------------------------------------- names

  predicate NameOk(utf8: Utf8Check, h: Header, done: seq<Name>, name: Name) {
    |name| + 1 == h.nameLength && name != [] && 0 !in name && utf8(name) && name !in done
  }

  function ReadName(utf8: Utf8Check, h: Header, done: seq<Name>, bytes: Input): Outcome<Name, Error> {
    var raw := Take(bytes, h.nameLength);
    if raw.None? then Err(Truncated) else
    var (content, rest) := raw.value;
    if content == [] || content[|content| - 1] != 0 || 0 in content[..|content| - 1] then Err(NameNotTerminated) else
    var name := content[..|content| - 1];
    if !utf8(name) then Err(NameNotUtf8)
    else if name == [] then Err(EmptyName)
    else if name in done then Err(DuplicateName)
    else Ok((name, rest))
  }

  function WriteName(name: Name): Input {
    name + [0]
  }

  lemma NameWritten(utf8: Utf8Check, h: Header, done: seq<Name>, name: Name, rest: Input)
    requires NameOk(utf8, h, done, name)
    ensures ReadName(utf8, h, done, WriteName(name) + rest) == Ok((name, rest))
  {
    TakeWritten(WriteName(name), rest);
    assert WriteName(name)[..|name|] == name;
  }

  lemma NameRead(utf8: Utf8Check, h: Header, done: seq<Name>, bytes: Input)
    requires ReadName(utf8, h, done, bytes).Ok?
    ensures var (name, rest) := ReadName(utf8, h, done, bytes).value;
            NameOk(utf8, h, done, name) && bytes == WriteName(name) + rest
  {
    var content := bytes[..h.nameLength];
    TakeSplits(bytes, h.nameLength);
    assert content == content[..|content| - 1] + [0];
  }

  function NameStep(utf8: Utf8Check, headers: seq<Header>): Step<Name, Error> {
    (done: seq<Name>, bytes: Input) => if |done| < |headers| then ReadName(utf8, headers[|done|], done, bytes) else Err(Truncated)
  }

  function NameWriter(): Writer<Name> {
    (done: seq<Name>, name: Name) => WriteName(name)
  }

  function NameCheck(utf8: Utf8Check, headers: seq<Header>): Check<Name> {
    (done: seq<Name>, name: Name) => |done| < |headers| && NameOk(utf8, headers[|done|], done, name)
  }

  lemma NamesInvert(utf8: Utf8Check, headers: seq<Header>)
    ensures Inverse(NameStep(utf8, headers), NameWriter(), NameCheck(utf8, headers), |headers|)
  {
    forall done: seq<Name>, name: Name, rest: Input | |done| < |headers| && NameCheck(utf8, headers)(done, name)
      ensures Undoes(NameStep(utf8, headers), NameWriter(), done, name, rest)
    {
      NameWritten(utf8, headers[|done|], done, name, rest);
    }
    forall done: seq<Name>, bytes: Input | |done| < |headers| && NameStep(utf8, headers)(done, bytes).Ok?
      ensures Accepts(NameStep(utf8, headers), NameWriter(), NameCheck(utf8, headers), done, bytes)
    {
      NameRead(utf8, headers[|done|], done, bytes);
    }
  }

  // ---------------------------------------------------------------------------------- shapes

  predicate DimensionOk(d: nat) {
    0 < d < 0x8000_0000
  }

  /** A four-byte signed integer that must be positive. */
  function ReadDimension(bytes: Input): Outcome<nat, Error> {
    var read := Number(bytes, 4);
    if read.None? then Err(Truncated) else if !DimensionOk(read.value.0) then Err(ShapeDimension) else Ok(read.value)
  }

  function DimensionStep(): Step<nat, Error> {
    (done: seq<nat>, bytes: Input) => ReadDimension(bytes)
  }

  function DimensionWriter(): Writer<nat> {
    (done: seq<nat>, d: nat) => Le32(d)
  }

  function DimensionCheck(): Check<nat> {
    (done: seq<nat>, d: nat) => DimensionOk(d)
  }

  lemma DimensionsInvert(n: nat)
    ensures Inverse(DimensionStep(), DimensionWriter(), DimensionCheck(), n)
  {
    Widths();
    forall done: seq<nat>, d: nat, rest: Input | |done| < n && DimensionCheck()(done, d)
      ensures Undoes(DimensionStep(), DimensionWriter(), done, d, rest)
    {
      NumberWritten(d, 4, rest);
    }
    forall done: seq<nat>, bytes: Input | |done| < n && DimensionStep()(done, bytes).Ok?
      ensures Accepts(DimensionStep(), DimensionWriter(), DimensionCheck(), done, bytes)
    {
      NumberSplits(bytes, 4);
    }
  }

  /** `checked_elements`: nothing, if a product leaves the address space. */
  function Elements(shape: seq<nat>): Option<nat> {
    if shape == [] then Some(1)
    else
      var before := Elements(shape[..|shape| - 1]);
      if before.None? || before.value * shape[|shape| - 1] >= USIZE_END then None else Some(before.value * shape[|shape| - 1])
  }

  predicate ShapeOk(h: Header, shape: seq<nat>) {
    |shape| == h.rank && (forall i :: 0 <= i < |shape| ==> DimensionOk(shape[i])) && Elements(shape).Some?
  }

  function ReadShape(h: Header, bytes: Input): Outcome<seq<nat>, Error> {
    var shape := ReadFrom(DimensionStep(), h.rank, [], bytes);
    if shape.Err? then Err(shape.error)
    else if Elements(shape.value.0).None? then Err(ElementOverflow)
    else Ok(shape.value)
  }

  function WriteShape(shape: seq<nat>): Input {
    WriteFrom(DimensionWriter(), shape, 0)
  }

  lemma ShapeWritten(h: Header, shape: seq<nat>, rest: Input)
    requires ShapeOk(h, shape)
    ensures ReadShape(h, WriteShape(shape) + rest) == Ok((shape, rest))
  {
    DimensionsInvert(|shape|);
    assert shape[..0] == [];
    ReadOfWritten(DimensionStep(), DimensionWriter(), DimensionCheck(), shape, 0, rest);
  }

  lemma ShapeRead(h: Header, bytes: Input)
    requires ReadShape(h, bytes).Ok?
    ensures var (shape, rest) := ReadShape(h, bytes).value;
            ShapeOk(h, shape) && bytes == WriteShape(shape) + rest
  {
    DimensionsInvert(h.rank);
    WrittenOfRead(DimensionStep(), DimensionWriter(), DimensionCheck(), h.rank, [], bytes);
    var shape := ReadShape(h, bytes).value.0;
    assert forall i :: 0 <= i < |shape| ==> DimensionCheck()(shape[..i], shape[i]);
  }

  function ShapeStep(headers: seq<Header>): Step<seq<nat>, Error> {
    (done: seq<seq<nat>>, bytes: Input) => if |done| < |headers| then ReadShape(headers[|done|], bytes) else Err(Truncated)
  }

  function ShapeWriter(): Writer<seq<nat>> {
    (done: seq<seq<nat>>, shape: seq<nat>) => WriteShape(shape)
  }

  function ShapeCheck(headers: seq<Header>): Check<seq<nat>> {
    (done: seq<seq<nat>>, shape: seq<nat>) => |done| < |headers| && ShapeOk(headers[|done|], shape)
  }

  lemma ShapesInvert(headers: seq<Header>)
    ensures Inverse(ShapeStep(headers), ShapeWriter(), ShapeCheck(headers), |headers|)
  {
    forall done: seq<seq<nat>>, shape: seq<nat>, rest: Input | |done| < |headers| && ShapeCheck(headers)(done, shape)
      ensures Undoes(ShapeStep(headers), ShapeWriter(), done, shape, rest)
    {
      ShapeWritten(headers[|done|], shape, rest);
    }
    forall done: seq<seq<nat>>, bytes: Input | |done| < |headers| && ShapeStep(headers)(done, bytes).Ok?
      ensures Accepts(ShapeStep(headers), ShapeWriter(), ShapeCheck(headers), done, bytes)
    {
      ShapeRead(headers[|done|], bytes);
    }
  }

  // ---------------------------------------------------------------------------------- records

  /** `logical_data_length`. */
  function LogicalLength(kind: Kind, elements: nat): Option<nat> {
    match kind
    case Int8 => Some(elements)
    case Float32 => if elements * 4 >= USIZE_END then None else Some(elements * 4)
    case Intgemm8 => if elements + 4 >= USIZE_END then None else Some(elements + 4)
  }

  /** `align_up`. */
  function AlignUp(value: nat, alignment: nat): Option<nat>
    requires alignment > 0
  {
    if value + alignment - 1 >= USIZE_END then None else Some((value + alignment - 1) / alignment * alignment)
  }

  /** The least multiple of the alignment that is not below the value. */
  lemma AlignUpIsLeast(value: nat)
    requires AlignUp(value, DATA_ALIGNMENT).Some?
    ensures var aligned := AlignUp(value, DATA_ALIGNMENT).value;
            value <= aligned < value + DATA_ALIGNMENT && aligned % DATA_ALIGNMENT == 0
  {
  }

  /** The length a record must have: raw bytes are not padded, everything else is. */
  function ExpectedLength(kind: Kind, logical: nat): Option<nat> {
    if kind.Int8? then Some(logical) else AlignUp(logical, DATA_ALIGNMENT)
  }

  function KindOfData(data: Data): Kind {
    match data
    case Int8Data(_) => Int8
    case Float32Data(_) => Float32
    case Intgemm8Data(_, _) => Intgemm8
  }

  predicate DataOk(h: Header, shape: seq<nat>, data: Data) {
    && KindOfData(data) == h.kind && Elements(shape).Some?
    && LogicalLength(h.kind, Elements(shape).value).Some?
    && ExpectedLength(h.kind, LogicalLength(h.kind, Elements(shape).value).value) == Some(h.dataLength)
    && ValuesOk(data, Elements(shape).value)
  }

  predicate ValuesOk(data: Data, elements: nat) {
    match data
    case Int8Data(bytes) => |bytes| == elements
    case Float32Data(floats) => |floats| == elements && forall i :: 0 <= i < |floats| ==> floats[i] < U32_END && Finite(floats[i])
    case Intgemm8Data(values, multiplier) => |values| == elements && 0x80 !in values && FinitePositive(multiplier)
  }

  /** The values of a payload whose length has been checked. */
  function ReadValues(kind: Kind, elements: nat, payload: Input): Result<Data, Error>
    requires LogicalLength(kind, elements) == Some(|payload|)
  {
    match kind
    case Int8 => Ok(Int8Data(payload))
    case Float32 =>
      var floats := Unwords(payload, 4, elements);
      if exists i :: 0 <= i < |floats| && !Finite(floats[i]) then Err(NotFinite) else Ok(Float32Data(floats))
    case Intgemm8 =>
      var values, multiplier := payload[..elements], UnLe(payload[elements..]);
      if 0x80 in values then Err(ContainsMinimum)
      else if !FinitePositive(multiplier) then Err(Multiplier)
      else Ok(Intgemm8Data(values, multiplier))
  }

  function WriteValues(data: Data): Input {
    match data
    case Int8Data(bytes) => bytes
    case Float32Data(floats) => Words(floats, 4)
    case Intgemm8Data(values, multiplier) => values + Le32(multiplier)
  }

  lemma ValuesWritten(kind: Kind, elements: nat, data: Data)
    requires KindOfData(data) == kind && ValuesOk(data, elements) && LogicalLength(kind, elements).Some?
    ensures LogicalLength(kind, elements) == Some(|WriteValues(data)|) && ReadValues(kind, elements, WriteValues(data)) == Ok(data)
  {
    Widths();
    match data
    case Int8Data(_) =>
    case Float32Data(floats) => UnwordsOfWords(floats, 4);
    case Intgemm8Data(values, multiplier) =>
      Le32RoundTrip(multiplier);
      assert WriteValues(data)[..elements] == values && WriteValues(data)[elements..] == Le32(multiplier);
  }

  lemma ValuesRead(kind: Kind, elements: nat, payload: Input)
    requires LogicalLength(kind, elements) == Some(|payload|) && ReadValues(kind, elements, payload).Ok?
    ensures var data := ReadValues(kind, elements, payload).value;
            KindOfData(data) == kind && ValuesOk(data, elements) && WriteValues(data) == payload
  {
    Widths();
    match kind
    case Int8 =>
    case Float32 => WordsOfUnwords(payload, 4, elements);
    case Intgemm8 => UnLe32(payload[elements..]);
  }

  function ReadRecord(h: Header, shape: seq<nat>, bytes: Input): Outcome<Data, Error> {
    if Elements(shape).None? then Err(ElementOverflow) else
    var elements := Elements(shape).value;
    var taken := Take(bytes, h.dataLength);
    if taken.None? then Err(Truncated) else
    var (payload, rest) := taken.value;
    if LogicalLength(h.kind, elements).None? then Err(LengthOverflow) else
    var logical := LogicalLength(h.kind, elements).value;
    if ExpectedLength(h.kind, logical).None? then Err(LengthOverflow)
    else if h.dataLength != ExpectedLength(h.kind, logical).value then Err(RecordLength)
    else (
      ExpectedIsEnough(h.kind, logical);
      if !AllZero(payload[logical..]) then Err(RecordPadding)
      else
        var values := ReadValues(h.kind, elements, payload[..logical]);
        if values.Err? then Err(values.error) else Ok((values.value, rest)))
  }

  lemma ExpectedIsEnough(kind: Kind, logical: nat)
    ensures ExpectedLength(kind, logical).Some? ==> logical <= ExpectedLength(kind, logical).value
  {
    if !kind.Int8? && AlignUp(logical, DATA_ALIGNMENT).Some? { AlignUpIsLeast(logical); }
  }

  /** The record, filled up with zeros to the length its header announces. */
  function WriteRecord(h: Header, data: Data): Input {
    var values := WriteValues(data);
    if |values| <= h.dataLength then values + Zeros(h.dataLength - |values|) else values
  }

  lemma RecordWritten(h: Header, shape: seq<nat>, data: Data, rest: Input)
    requires DataOk(h, shape, data)
    ensures ReadRecord(h, shape, WriteRecord(h, data) + rest) == Ok((data, rest))
  {
    var elements := Elements(shape).value;
    ValuesWritten(h.kind, elements, data);
    ExpectedIsEnough(h.kind, |WriteValues(data)|);
    TakeWritten(WriteRecord(h, data), rest);
    assert WriteRecord(h, data)[..|WriteValues(data)|] == WriteValues(data);
  }

  lemma RecordRead(h: Header, shape: seq<nat>, bytes: Input)
    requires ReadRecord(h, shape, bytes).Ok?
    ensures var (data, rest) := ReadRecord(h, shape, bytes).value;
            DataOk(h, shape, data) && bytes == WriteRecord(h, data) + rest
  {
    var elements := Elements(shape).value;
    var logical := LogicalLength(h.kind, elements).value;
    var payload := bytes[..h.dataLength];
    TakeSplits(bytes, h.dataLength);
    ExpectedIsEnough(h.kind, logical);
    ValuesRead(h.kind, elements, payload[..logical]);
    assert payload == payload[..logical] + payload[logical..];
    assert payload[logical..] == Zeros(h.dataLength - logical);
  }

  function RecordStep(headers: seq<Header>, shapes: seq<seq<nat>>): Step<Data, Error> {
    (done: seq<Data>, bytes: Input) =>
      if |done| < |headers| && |done| < |shapes| then ReadRecord(headers[|done|], shapes[|done|], bytes) else Err(Truncated)
  }

  function RecordWriter(headers: seq<Header>): Writer<Data> {
    (done: seq<Data>, data: Data) => if |done| < |headers| then WriteRecord(headers[|done|], data) else []
  }

  function RecordCheck(headers: seq<Header>, shapes: seq<seq<nat>>): Check<Data> {
    (done: seq<Data>, data: Data) => |done| < |headers| && |done| < |shapes| && DataOk(headers[|done|], shapes[|done|], data)
  }

  lemma RecordsInvert(headers: seq<Header>, shapes: seq<seq<nat>>)
    requires |shapes| == |headers|
    ensures Inverse(RecordStep(headers, shapes), RecordWriter(headers), RecordCheck(headers, shapes), |headers|)
  {
    var step, write, ok := RecordStep(headers, shapes), RecordWriter(headers), RecordCheck(headers, shapes);
    forall done: seq<Data>, data: Data, rest: Input | |done| < |headers| && ok(done, data)
      ensures Undoes(step, write, done, data, rest)
    {
      RecordWritten(headers[|done|], shapes[|done|], data, rest);
    }
    forall done: seq<Data>, bytes: Input | |done| < |headers| && step(done, bytes).Ok?
      ensures Accepts(step, write, ok, done, bytes)
    {
      RecordRead(headers[|done|], shapes[|done|], bytes);
    }
  }

  // ---------------------------------------------------------------------------------- the whole file

  /** The sections of a file. */
  datatype Parts = Parts(headers: seq<Header>, names: seq<Name>, shapes: seq<seq<nat>>, padding: nat, records: seq<Data>)

  ghost predicate Sized(p: Parts) {
    0 < |p.headers| <= MAXIMUM_TENSORS && |p.names| == |p.shapes| == |p.records| == |p.headers|
  }

  ghost predicate PartsOk(utf8: Utf8Check, p: Parts) {
    && Sized(p)
    && AllOk(HeaderCheck(), p.headers, 0) && AllOk(NameCheck(utf8, p.headers), p.names, 0)
    && AllOk(ShapeCheck(p.headers), p.shapes, 0) && AllOk(RecordCheck(p.headers, p.shapes), p.records, 0)
  }

  function WriteRecords(p: Parts): Input {
    WriteFrom(RecordWriter(p.headers), p.records, 0)
  }

  // The bytes from each section to the end of the file.

  function Nothing(): Parts -> Input {
    (p: Parts) => []
  }

  function RecordsOn(): Parts -> Input {
    (p: Parts) => WriteRecords(p) + []
  }

  function PaddingOn(): Parts -> Input {
    (p: Parts) => Le64(p.padding) + (Zeros(p.padding) + WriteRecords(p))
  }

  function ShapesOn(): Parts -> Input {
    (p: Parts) => WriteFrom(ShapeWriter(), p.shapes, 0) + PaddingOn()(p)
  }

  function NamesOn(): Parts -> Input {
    (p: Parts) => WriteFrom(NameWriter(), p.names, 0) + ShapesOn()(p)
  }

  function HeadersOn(): Parts -> Input {
    (p: Parts) => WriteFrom(HeaderWriter(), p.headers, 0) + NamesOn()(p)
  }

  function Write(p: Parts): Input {
    Le64(VERSION) + (Le64(|p.headers|) + HeadersOn()(p))
  }

  /** Where the padding length stands. */
  function IndexLength(p: Parts): nat {
    16 + |WriteFrom(HeaderWriter(), p.headers, 0)| + |WriteFrom(NameWriter(), p.names, 0)| + |WriteFrom(ShapeWriter(), p.shapes, 0)|
  }

  /** A file the parser must accept. */
  ghost predicate WellFormed(utf8: Utf8Check, p: Parts) {
    && PartsOk(utf8, p) && |Write(p)| <= MAXIMUM_FILE_BYTES
    && (IndexLength(p) + 8 + p.padding) % DATA_ALIGNMENT == 0
  }

  /** The padding length and the zeros, up to an aligned position; `size` bytes is the whole file. */
  function ReadPadding(size: nat, bytes: Input): Outcome<nat, Error> {
    var offset := Number(bytes, 8);
    if offset.None? then Err(Truncated) else
    var taken := Take(offset.value.1, offset.value.0);
    if taken.None? then Err(Truncated)
    else if !AllZero(taken.value.0) then Err(PaddingNotZero)
    else if (size - |taken.value.1|) % DATA_ALIGNMENT != 0 then Err(Misaligned)
    else Ok((offset.value.0, taken.value.1))
  }

  function ReadCount(bytes: Input): Outcome<nat, Error> {
    var version := Number(bytes, 8);
    if version.None? then Err(Truncated)
    else if version.value.0 != VERSION then Err(UnsupportedVersion)
    else
      var count := Number(version.value.1, 8);
      if count.None? then Err(Truncated)
      else if count.value.0 == 0 || count.value.0 > MAXIMUM_TENSORS then Err(TensorCount)
      else Ok(count.value)
  }

  type Rest = Parser<Parts, Error>

  // The parser as a function, from the end of the file to its beginning; `size` is the length of the whole file.

  function AfterRecords(hs: seq<Header>, names: seq<Name>, shapes: seq<seq<nat>>, padding: nat): seq<Data> -> Rest {
    (records: seq<Data>) => (bytes: Input) => if bytes != [] then Err(TrailingBytes) else Ok(Parts(hs, names, shapes, padding, records))
  }

  function AfterPadding(hs: seq<Header>, names: seq<Name>, shapes: seq<seq<nat>>, padding: nat): Rest {
    Section(RecordStep(hs, shapes), |hs|, AfterRecords(hs, names, shapes, padding))
  }

  function AfterShapes(size: nat, hs: seq<Header>, names: seq<Name>): seq<seq<nat>> -> Rest {
    (shapes: seq<seq<nat>>) => (bytes: Input) =>
      var padding := ReadPadding(size, bytes);
      if padding.Err? then Err(padding.error) else AfterPadding(hs, names, shapes, padding.value.0)(padding.value.1)
  }

  function AfterNames(size: nat, hs: seq<Header>): seq<Name> -> Rest {
    (names: seq<Name>) => Section(ShapeStep(hs), |hs|, AfterShapes(size, hs, names))
  }

  function AfterHeaders(utf8: Utf8Check, size: nat): seq<Header> -> Rest {
    (hs: seq<Header>) => Section(NameStep(utf8, hs), |hs|, AfterNames(size, hs))
  }

  function Parse(utf8: Utf8Check, bytes: Input): Result<Parts, Error> {
    if |bytes| > MAXIMUM_FILE_BYTES then Err(TooLarge) else
    var count := ReadCount(bytes);
    if count.Err? then Err(count.error)
    else Section(HeaderStep(), count.value.0, AfterHeaders(utf8, |bytes|))(count.value.1)
  }

  lemma CountWritten(n: nat, rest: Input)
    requires 0 < n <= MAXIMUM_TENSORS
    ensures ReadCount(Le64(VERSION) + (Le64(n) + rest)) == Ok((n, rest))
  {
    Widths();
    NumberWritten(VERSION, 8, Le64(n) + rest);
    NumberWritten(n, 8, rest);
  }

  lemma CountRead(bytes: Input)
    requires ReadCount(bytes).Ok?
    ensures var (n, rest) := ReadCount(bytes).value;
            0 < n <= MAXIMUM_TENSORS && bytes == Le64(VERSION) + (Le64(n) + rest)
  {
    NumberSplits(bytes, 8);
    NumberSplits(bytes[8..], 8);
  }

  lemma PaddingWritten(size: nat, padding: nat, rest: Input)
    requires padding < U64_END && size >= |rest| && (size - |rest|) % DATA_ALIGNMENT == 0
    ensures ReadPadding(size, Le64(padding) + (Zeros(padding) + rest)) == Ok((padding, rest))
  {
    Widths();
    NumberWritten(padding, 8, Zeros(padding) + rest);
    TakeWritten(Zeros(padding), rest);
  }

  lemma PaddingRead(size: nat, bytes: Input)
    requires ReadPadding(size, bytes).Ok?
    ensures var (padding, rest) := ReadPadding(size, bytes).value;
            bytes == Le64(padding) + (Zeros(padding) + rest) && (size - |rest|) % DATA_ALIGNMENT == 0
  {
    NumberSplits(bytes, 8);
    var (padding, rest) := ReadPadding(size, bytes).value;
    TakeSplits(bytes[8..], padding);
    assert bytes[8..][..padding] == Zeros(padding);
  }

  lemma WriteLength(p: Parts)
    ensures |Write(p)| == IndexLength(p) + 8 + p.padding + |WriteRecords(p)|
  {
    assert |Le64(VERSION)| == |Le64(|p.headers|)| == |Le64(p.padding)| == 8;
    assert |PaddingOn()(p)| == 8 + p.padding + |WriteRecords(p)|;
    assert |NamesOn()(p)| == |WriteFrom(NameWriter(), p.names, 0)| + |ShapesOn()(p)|;
    assert |HeadersOn()(p)| == IndexLength(p) - 16 + |PaddingOn()(p)|;
  }

  // ---------------------------------------------------------------------------------- reading what was written

  lemma RecordsWritten(utf8: Utf8Check, p: Parts)
    requires PartsOk(utf8, p)
    ensures AfterPadding(p.headers, p.names, p.shapes, p.padding)(WriteRecords(p)) == Ok(p)
  {
    RecordsInvert(p.headers, p.shapes);
    SectionAccepts(RecordStep(p.headers, p.shapes), RecordWriter(p.headers), RecordCheck(p.headers, p.shapes), p.records,
                   AfterRecords(p.headers, p.names, p.shapes, p.padding), []);
    assert WriteRecords(p) + [] == WriteRecords(p);
  }

  lemma ShapesWritten(utf8: Utf8Check, size: nat, p: Parts)
    requires PartsOk(utf8, p) && p.padding < U64_END && size >= |WriteRecords(p)| && (size - |WriteRecords(p)|) % DATA_ALIGNMENT == 0
    ensures AfterNames(size, p.headers)(p.names)(ShapesOn()(p)) == Ok(p)
  {
    RecordsWritten(utf8, p);
    PaddingWritten(size, p.padding, WriteRecords(p));
    ShapesInvert(p.headers);
    SectionAccepts(ShapeStep(p.headers), ShapeWriter(), ShapeCheck(p.headers), p.shapes, AfterShapes(size, p.headers, p.names), PaddingOn()(p));
  }

  lemma NamesWritten(utf8: Utf8Check, size: nat, p: Parts)
    requires PartsOk(utf8, p) && AfterNames(size, p.headers)(p.names)(ShapesOn()(p)) == Ok(p)
    ensures AfterHeaders(utf8, size)(p.headers)(NamesOn()(p)) == Ok(p)
  {
    NamesInvert(utf8, p.headers);
    SectionAccepts(NameStep(utf8, p.headers), NameWriter(), NameCheck(utf8, p.headers), p.names, AfterNames(size, p.headers), ShapesOn()(p));
  }

  lemma HeadersWritten(utf8: Utf8Check, size: nat, p: Parts)
    requires PartsOk(utf8, p) && AfterHeaders(utf8, size)(p.headers)(NamesOn()(p)) == Ok(p)
    ensures Section(HeaderStep(), |p.headers|, AfterHeaders(utf8, size))(HeadersOn()(p)) == Ok(p)
  {
    HeadersInvert(|p.headers|);
    SectionAccepts(HeaderStep(), HeaderWriter(), HeaderCheck(), p.headers, AfterHeaders(utf8, size), NamesOn()(p));
  }

  /** Parsing what was written gives back the model, whatever zero padding aligns it. */
  lemma ParseOfWrite(utf8: Utf8Check, p: Parts)
    requires WellFormed(utf8, p)
    ensures Parse(utf8, Write(p)) == Ok(p)
  {
    WriteLength(p);
    ShapesWritten(utf8, |Write(p)|, p);
    NamesWritten(utf8, |Write(p)|, p);
    HeadersWritten(utf8, |Write(p)|, p);
    CountWritten(|p.headers|, HeadersOn()(p));
  }

  // ---------------------------------------------------------------------------------- writing what was read

  function IsThis(hs: seq<Header>, names: seq<Name>, shapes: seq<seq<nat>>, padding: nat): seq<Data> -> Parts -> bool {
    (records: seq<Data>) => (p: Parts) => p == Parts(hs, names, shapes, padding, records)
  }

  ghost function RecordsGood(hs: seq<Header>, names: seq<Name>, shapes: seq<seq<nat>>, padding: nat): Parts -> bool {
    (p: Parts) => p.headers == hs && p.names == names && p.shapes == shapes && p.padding == padding && |p.records| == |hs|
                  && AllOk(RecordCheck(hs, shapes), p.records, 0)
  }

  lemma RecordsRestore(hs: seq<Header>, names: seq<Name>, shapes: seq<seq<nat>>, padding: nat)
    requires |shapes| == |hs|
    ensures Restores(AfterPadding(hs, names, shapes, padding), RecordsOn(), RecordsGood(hs, names, shapes, padding))
  {
    RecordsInvert(hs, shapes);
    var next, good := AfterRecords(hs, names, shapes, padding), IsThis(hs, names, shapes, padding);
    forall records: seq<Data> ensures Restores(next(records), Nothing(), good(records)) {
      forall bytes | next(records)(bytes).Ok? ensures RestoresAt(next(records), Nothing(), good(records), bytes) { }
    }
    SectionRestores(RecordStep(hs, shapes), RecordWriter(hs), RecordCheck(hs, shapes), |hs|, next, Nothing(), good,
                    RecordsOn(), RecordsGood(hs, names, shapes, padding));
  }

  ghost function PaddingGood(size: nat, hs: seq<Header>, names: seq<Name>): seq<seq<nat>> -> Parts -> bool {
    (shapes: seq<seq<nat>>) => (p: Parts) =>
      && p.headers == hs && p.names == names && p.shapes == shapes && |p.records| == |hs|
      && AllOk(RecordCheck(hs, shapes), p.records, 0) && (size - |WriteRecords(p)|) % DATA_ALIGNMENT == 0
  }

  lemma PaddingRestores(size: nat, hs: seq<Header>, names: seq<Name>, shapes: seq<seq<nat>>)
    requires |shapes| == |hs|
    ensures Restores(AfterShapes(size, hs, names)(shapes), PaddingOn(), PaddingGood(size, hs, names)(shapes))
  {
    var parse, good := AfterShapes(size, hs, names)(shapes), PaddingGood(size, hs, names)(shapes);
    forall bytes | parse(bytes).Ok? ensures RestoresAt(parse, PaddingOn(), good, bytes) {
      PaddingRead(size, bytes);
      var (padding, rest) := ReadPadding(size, bytes).value;
      RecordsRestore(hs, names, shapes, padding);
      assert RestoresAt(AfterPadding(hs, names, shapes, padding), RecordsOn(), RecordsGood(hs, names, shapes, padding), rest);
      var p := parse(bytes).value;
      assert rest == WriteRecords(p) + [] == WriteRecords(p);
    }
  }

  ghost function ShapesGood(size: nat, hs: seq<Header>): seq<Name> -> Parts -> bool {
    (names: seq<Name>) => (p: Parts) =>
      && p.headers == hs && p.names == names && |p.shapes| == |p.records| == |hs|
      && AllOk(ShapeCheck(hs), p.shapes, 0) && AllOk(RecordCheck(hs, p.shapes), p.records, 0)
      && (size - |WriteRecords(p)|) % DATA_ALIGNMENT == 0
  }

  lemma ShapesRestore(size: nat, hs: seq<Header>, names: seq<Name>)
    ensures Restores(AfterNames(size, hs)(names), ShapesOn(), ShapesGood(size, hs)(names))
  {
    ShapesInvert(hs);
    var next, good := AfterShapes(size, hs, names), PaddingGood(size, hs, names);
    forall shapes: seq<seq<nat>> | |shapes| == |hs| ensures Restores(next(shapes), PaddingOn(), good(shapes)) {
      PaddingRestores(size, hs, names, shapes);
    }
    SectionRestores(ShapeStep(hs), ShapeWriter(), ShapeCheck(hs), |hs|, next, PaddingOn(), good, ShapesOn(), ShapesGood(size, hs)(names));
  }

  ghost function NamesGood(utf8: Utf8Check, size: nat): seq<Header> -> Parts -> bool {
    (hs: seq<Header>) => (p: Parts) =>
      && p.headers == hs && |p.names| == |p.shapes| == |p.records| == |hs| && AllOk(NameCheck(utf8, hs), p.names, 0)
      && AllOk(ShapeCheck(hs), p.shapes, 0) && AllOk(RecordCheck(hs, p.shapes), p.records, 0)
      && (size - |WriteRecords(p)|) % DATA_ALIGNMENT == 0
  }

  lemma NamesRestore(utf8: Utf8Check, size: nat, hs: seq<Header>)
    ensures Restores(AfterHeaders(utf8, size)(hs), NamesOn(), NamesGood(utf8, size)(hs))
  {
    NamesInvert(utf8, hs);
    var next, good := AfterNames(size, hs), ShapesGood(size, hs);
    forall names: seq<Name> ensures Restores(next(names), ShapesOn(), good(names)) {
      ShapesRestore(size, hs, names);
    }
    SectionRestores(NameStep(utf8, hs), NameWriter(), NameCheck(utf8, hs), |hs|, next, ShapesOn(), good, NamesOn(), NamesGood(utf8, size)(hs));
  }

  ghost function PartsGood(utf8: Utf8Check, size: nat, n: nat): Parts -> bool {
    (p: Parts) => |p.headers| == n && (0 < n <= MAXIMUM_TENSORS ==> PartsOk(utf8, p)) && (size - |WriteRecords(p)|) % DATA_ALIGNMENT == 0
  }

  lemma HeadersRestore(utf8: Utf8Check, size: nat, n: nat)
    ensures Restores(Section(HeaderStep(), n, AfterHeaders(utf8, size)), HeadersOn(), PartsGood(utf8, size, n))
  {
    HeadersInvert(n);
    var next, good := AfterHeaders(utf8, size), NamesGood(utf8, size);
    forall hs: seq<Header> ensures Restores(next(hs), NamesOn(), good(hs)) {
      NamesRestore(utf8, size, hs);
    }
    SectionRestores(HeaderStep(), HeaderWriter(), HeaderCheck(), n, next, NamesOn(), good, HeadersOn(), PartsGood(utf8, size, n));
  }

  lemma AcceptedWhole(utf8: Utf8Check, bytes: Input, rest: Input, p: Parts)
    requires |bytes| <= MAXIMUM_FILE_BYTES && bytes == Le64(VERSION) + (Le64(|p.headers|) + rest)
    requires PartsOk(utf8, p) && rest == HeadersOn()(p) && (|bytes| - |WriteRecords(p)|) % DATA_ALIGNMENT == 0
    ensures WellFormed(utf8, p) && Write(p) == bytes
  {
    WriteLength(p);
  }

  lemma ParseSteps(utf8: Utf8Check, bytes: Input)
    requires Parse(utf8, bytes).Ok?
    ensures |bytes| <= MAXIMUM_FILE_BYTES && ReadCount(bytes).Ok?
    ensures var (n, rest) := ReadCount(bytes).value;
            Section(HeaderStep(), n, AfterHeaders(utf8, |bytes|))(rest) == Parse(utf8, bytes)
  {
  }

  lemma WriteOfParsed(utf8: Utf8Check, bytes: Input, n: nat, rest: Input, p: Parts, parse: Rest)
    requires |bytes| <= MAXIMUM_FILE_BYTES && 0 < n <= MAXIMUM_TENSORS && bytes == Le64(VERSION) + (Le64(n) + rest)
    requires Restores(parse, HeadersOn(), PartsGood(utf8, |bytes|, n)) && parse(rest) == Ok(p)
    ensures WellFormed(utf8, p) && Write(p) == bytes
  {
    RestoresHere(parse, HeadersOn(), PartsGood(utf8, |bytes|, n), rest, p);
    AcceptedWhole(utf8, bytes, rest, p);
  }

  /** Every accepted file is the well-formed writing of its result: no byte is ignored. */
  lemma WriteOfParse(utf8: Utf8Check, bytes: Input, p: Parts)
    requires Parse(utf8, bytes) == Ok(p)
    ensures WellFormed(utf8, p) && Write(p) == bytes
  {
    ParseSteps(utf8, bytes);
    CountRead(bytes);
    var (n, rest) := ReadCount(bytes).value;
    HeadersRestore(utf8, |bytes|, n);
    WriteOfParsed(utf8, bytes, n, rest, p, Section(HeaderStep(), n, AfterHeaders(utf8, |bytes|)));
  }

  /** The padding that the repository's own writer chooses: up to the next aligned position, always at least one byte. */
  function WriterPadding(p: Parts): nat {
    ((IndexLength(p) + 8) / DATA_ALIGNMENT + 1) * DATA_ALIGNMENT - IndexLength(p) - 8
  }

  lemma AlignedIsWellFormed(utf8: Utf8Check, p: Parts)
    requires PartsOk(utf8, p) && |Write(p)| <= MAXIMUM_FILE_BYTES && (IndexLength(p) + 8 + p.padding) % DATA_ALIGNMENT == 0
    ensures WellFormed(utf8, p)
  {
  }

  lemma WriterPaddingAligns(length: nat)
    ensures var padding := ((length + 8) / DATA_ALIGNMENT + 1) * DATA_ALIGNMENT - length - 8;
            0 < padding <= DATA_ALIGNMENT && (length + 8 + padding) % DATA_ALIGNMENT == 0
  {
  }

  /** What the repository's own writer produces is accepted and read back. */
  lemma WriterIsAccepted(utf8: Utf8Check, p: Parts)
    requires PartsOk(utf8, p) && p.padding == WriterPadding(p) && |Write(p)| <= MAXIMUM_FILE_BYTES
    ensures Parse(utf8, Write(p)) == Ok(p) && 0 < p.padding <= DATA_ALIGNMENT
  {
    WriterPaddingAligns(IndexLength(p));
    AlignedIsWellFormed(utf8, p);
    ParseOfWrite(utf8, p);
  }

  /** Two well-formed files that agree in every byte hold the same model. */
  lemma WriteIsInjective(utf8: Utf8Check, p: Parts, q: Parts)
    requires WellFormed(utf8, p) && WellFormed(utf8, q) && Write(p) == Write(q)
    ensures p == q
  {
    ParseOfWrite(utf8, p);
    ParseOfWrite(utf8, q);
  }

  // ---------------------------------------------------------------------------------- the parser as it runs

  method NextHeader(reader: Reader) returns (r: Result<Header, Error>)
    requires reader.Valid()
    modifies reader
    ensures reader.Valid() && Follows(ReadHeader(old(reader.Rest())), r, reader.Rest())
  {
    var name := reader.ReadNumber(8);
    if name.None? { return Err(Truncated); }
    var code := reader.ReadNumber(8);
    if code.None? { return Err(Truncated); }
    var kind := KindOf(code.value);
    if kind.None? { return Err(UnsupportedType); }
    var rank := reader.ReadNumber(8);
    if rank.None? { return Err(Truncated); }
    var data := reader.ReadNumber(8);
    if data.None? { return Err(Truncated); }
    var header := Header(name.value, kind.value, rank.value, data.value);
    var problem := CheckHeader(header);
    if problem.Some? { return Err(problem.value); }
    return Ok(header);
  }

  method ReadHeaders(reader: Reader, n: nat) returns (r: Result<seq<Header>, Error>)
    requires reader.Valid()
    modifies reader
    ensures reader.Valid() && Follows(ReadFrom(HeaderStep(), n, [], old(reader.Rest())), r, reader.Rest())
  {
    ghost var all := ReadFrom(HeaderStep(), n, [], reader.Rest());
    var headers: seq<Header> := [];
    while |headers| < n
      invariant reader.Valid() && |headers| <= n && ReadFrom(HeaderStep(), n, headers, reader.Rest()) == all
    {
      var header := NextHeader(reader);
      if header.Err? { return Err(header.error); }
      headers := headers + [header.value];
    }
    return Ok(headers);
  }

  /** `by_name` maps every name read so far to its position. */
  ghost predicate Indexed(names: seq<Name>, byName: map<Name, nat>) {
    && (forall name :: name in byName <==> name in names)
    && (forall i :: 0 <= i < |names| ==> names[i] in byName && byName[names[i]] == i)
  }

  method NextName(utf8: Utf8Check, reader: Reader, header: Header, byName: map<Name, nat>, ghost names: seq<Name>)
    returns (r: Result<Name, Error>)
    requires reader.Valid() && Indexed(names, byName)
    modifies reader
    ensures reader.Valid() && Follows(ReadName(utf8, header, names, old(reader.Rest())), r, reader.Rest())
  {
    var raw := reader.TakeBytes(header.nameLength);
    if raw.None? { return Err(Truncated); }
    var content := raw.value;
    if content == [] || content[|content| - 1] != 0 || 0 in content[..|content| - 1] { return Err(NameNotTerminated); }
    var name := content[..|content| - 1];
    if !utf8(name) { return Err(NameNotUtf8); }
    if name == [] { return Err(EmptyName); }
    if name in byName { return Err(DuplicateName); }
    return Ok(name);
  }

  method ReadNames(utf8: Utf8Check, reader: Reader, headers: seq<Header>) returns (r: Result<seq<Name>, Error>, byName: map<Name, nat>)
    requires reader.Valid()
    modifies reader
    ensures reader.Valid() && Follows(ReadFrom(NameStep(utf8, headers), |headers|, [], old(reader.Rest())), r, reader.Rest())
    ensures r.Ok? ==> Indexed(r.value, byName)
  {
    ghost var all := ReadFrom(NameStep(utf8, headers), |headers|, [], reader.Rest());
    var names: seq<Name> := [];
    byName := map[];
    while |names| < |headers|
      invariant reader.Valid() && |names| <= |headers| && Indexed(names, byName)
      invariant ReadFrom(NameStep(utf8, headers), |headers|, names, reader.Rest()) == all
    {
      var name := NextName(utf8, reader, headers[|names|], byName, names);
      if name.Err? { return Err(name.error), byName; }
      byName := byName[name.value := |names|];
      names := names + [name.value];
    }
    return Ok(names), byName;
  }

  method NextShape(reader: Reader, header: Header) returns (r: Result<seq<nat>, Error>)
    requires reader.Valid()
    modifies reader
    ensures reader.Valid() && Follows(ReadShape(header, old(reader.Rest())), r, reader.Rest())
  {
    ghost var all := ReadFrom(DimensionStep(), header.rank, [], reader.Rest());
    var shape: seq<nat> := [];
    while |shape| < header.rank
      invariant reader.Valid() && |shape| <= header.rank && ReadFrom(DimensionStep(), header.rank, shape, reader.Rest()) == all
    {
      var dimension := reader.ReadNumber(4);
      if dimension.None? { return Err(Truncated); }
      if !DimensionOk(dimension.value) { return Err(ShapeDimension); }
      shape := shape + [dimension.value];
    }
    if Elements(shape).None? { return Err(ElementOverflow); }
    return Ok(shape);
  }

  method ReadShapes(reader: Reader, headers: seq<Header>) returns (r: Result<seq<seq<nat>>, Error>)
    requires reader.Valid()
    modifies reader
    ensures reader.Valid() && Follows(ReadFrom(ShapeStep(headers), |headers|, [], old(reader.Rest())), r, reader.Rest())
  {
    ghost var all := ReadFrom(ShapeStep(headers), |headers|, [], reader.Rest());
    var shapes: seq<seq<nat>> := [];
    while |shapes| < |headers|
      invariant reader.Valid() && |shapes| <= |headers| && ReadFrom(ShapeStep(headers), |headers|, shapes, reader.Rest()) == all
    {
      var shape := NextShape(reader, headers[|shapes|]);
      if shape.Err? { return Err(shape.error); }
      shapes := shapes + [shape.value];
    }
    return Ok(shapes);
  }

  method SkipPadding(reader: Reader) returns (r: Result<nat, Error>)
    requires reader.Valid()
    modifies reader
    ensures reader.Valid() && Follows(ReadPadding(|reader.bytes|, old(reader.Rest())), r, reader.Rest())
  {
    var offset := reader.ReadNumber(8);
    if offset.None? { return Err(Truncated); }
    var padding := reader.TakeBytes(offset.value);
    if padding.None? { return Err(Truncated); }
    if !AllZero(padding.value) { return Err(PaddingNotZero); }
    if reader.position % DATA_ALIGNMENT != 0 { return Err(Misaligned); }
    return Ok(offset.value);
  }

  method NextRecord(reader: Reader, header: Header, shape: seq<nat>) returns (r: Result<Data, Error>)
    requires reader.Valid()
    modifies reader
    ensures reader.Valid() && Follows(ReadRecord(header, shape, old(reader.Rest())), r, reader.Rest())
  {
    var elements := Elements(shape);
    if elements.None? { return Err(ElementOverflow); }
    var payload := reader.TakeBytes(header.dataLength);
    if payload.None? { return Err(Truncated); }
    var logical := LogicalLength(header.kind, elements.value);
    if logical.None? { return Err(LengthOverflow); }
    var expected := ExpectedLength(header.kind, logical.value);
    if expected.None? { return Err(LengthOverflow); }
    if header.dataLength != expected.value { return Err(RecordLength); }
    ExpectedIsEnough(header.kind, logical.value);
    if !AllZero(payload.value[logical.value..]) { return Err(RecordPadding); }
    r := ReadValues(header.kind, elements.value, payload.value[..logical.value]);
  }

  method ReadRecords(reader: Reader, headers: seq<Header>, shapes: seq<seq<nat>>) returns (r: Result<seq<Data>, Error>)
    requires reader.Valid() && |shapes| == |headers|
    modifies reader
    ensures reader.Valid() && Follows(ReadFrom(RecordStep(headers, shapes), |headers|, [], old(reader.Rest())), r, reader.Rest())
  {
    ghost var all := ReadFrom(RecordStep(headers, shapes), |headers|, [], reader.Rest());
    var records: seq<Data> := [];
    while |records| < |headers|
      invariant reader.Valid() && |records| <= |headers|
      invariant ReadFrom(RecordStep(headers, shapes), |headers|, records, reader.Rest()) == all
    {
      var record := NextRecord(reader, headers[|records|], shapes[|records|]);
      if record.Err? { return Err(record.error); }
      records := records + [record.value];
    }
    return Ok(records);
  }

  method ParseFromRecords(reader: Reader, headers: seq<Header>, names: seq<Name>, shapes: seq<seq<nat>>, padding: nat)
    returns (r: Result<Parts, Error>)
    requires reader.Valid() && |shapes| == |headers|
    modifies reader
    ensures r == AfterPadding(headers, names, shapes, padding)(old(reader.Rest()))
    ensures r.Ok? ==> r.value.names == names
  {
    ghost var before := reader.Rest();
    var records := ReadRecords(reader, headers, shapes);
    SectionSteps(RecordStep(headers, shapes), |headers|, AfterRecords(headers, names, shapes, padding), before, records, reader.Rest());
    if records.Err? { return Err(records.error); }
    if reader.position != |reader.bytes| { return Err(TrailingBytes); }
    return Ok(Parts(headers, names, shapes, padding, records.value));
  }

  method ParseFromPadding(reader: Reader, headers: seq<Header>, names: seq<Name>, shapes: seq<seq<nat>>) returns (r: Result<Parts, Error>)
    requires reader.Valid() && |shapes| == |headers|
    modifies reader
    ensures r == AfterShapes(|reader.bytes|, headers, names)(shapes)(old(reader.Rest()))
    ensures r.Ok? ==> r.value.names == names
  {
    var padding := SkipPadding(reader);
    if padding.Err? { return Err(padding.error); }
    r := ParseFromRecords(reader, headers, names, shapes, padding.value);
  }

  method ParseFromShapes(reader: Reader, headers: seq<Header>, names: seq<Name>) returns (r: Result<Parts, Error>)
    requires reader.Valid()
    modifies reader
    ensures r == AfterNames(|reader.bytes|, headers)(names)(old(reader.Rest()))
    ensures r.Ok? ==> r.value.names == names
  {
    ghost var before := reader.Rest();
    var shapes := ReadShapes(reader, headers);
    SectionSteps(ShapeStep(headers), |headers|, AfterShapes(|reader.bytes|, headers, names), before, shapes, reader.Rest());
    if shapes.Err? { return Err(shapes.error); }
    r := ParseFromPadding(reader, headers, names, shapes.value);
  }

  method ParseFromNames(utf8: Utf8Check, reader: Reader, headers: seq<Header>) returns (r: Result<Parts, Error>, byName: map<Name, nat>)
    requires reader.Valid()
    modifies reader
    ensures r == AfterHeaders(utf8, |reader.bytes|)(headers)(old(reader.Rest()))
    ensures r.Ok? ==> Indexed(r.value.names, byName)
  {
    ghost var before := reader.Rest();
    var names;
    names, byName := ReadNames(utf8, reader, headers);
    SectionSteps(NameStep(utf8, headers), |headers|, AfterNames(|reader.bytes|, headers), before, names, reader.Rest());
    if names.Err? { return Err(names.error), byName; }
    r := ParseFromShapes(reader, headers, names.value);
  }

  /** `MarianBinaryModel::parse`: agrees with the parsing function, and indexes the tensors by name. */
  method ParseModel(utf8: Utf8Check, bytes: Input) returns (r: Result<Parts, Error>, byName: map<Name, nat>)
    ensures r == Parse(utf8, bytes)
    ensures r.Ok? ==> WellFormed(utf8, r.value) && Write(r.value) == bytes && Indexed(r.value.names, byName)
  {
    byName := map[];
    if |bytes| > MAXIMUM_FILE_BYTES { return Err(TooLarge), byName; }
    var reader := new Reader(bytes);
    var version := reader.ReadNumber(8);
    if version.None? { return Err(Truncated), byName; }
    if version.value != VERSION { return Err(UnsupportedVersion), byName; }
    var count := reader.ReadNumber(8);
    if count.None? { return Err(Truncated), byName; }
    if count.value == 0 || count.value > MAXIMUM_TENSORS { return Err(TensorCount), byName; }
    r, byName := ParseCounted(utf8, reader, count.value);
    if r.Ok? { WriteOfParse(utf8, bytes, r.value); }
  }

  method ParseCounted(utf8: Utf8Check, reader: Reader, n: nat) returns (r: Result<Parts, Error>, byName: map<Name, nat>)
    requires reader.Valid()
    modifies reader
    ensures r == Section(HeaderStep(), n, AfterHeaders(utf8, |reader.bytes|))(old(reader.Rest()))
    ensures r.Ok? ==> Indexed(r.value.names, byName)
  {
    ghost var before := reader.Rest();
    var headers := ReadHeaders(reader, n);
    SectionSteps(HeaderStep(), n, AfterHeaders(utf8, |reader.bytes|), before, headers, reader.Rest());
    if headers.Err? { return Err(headers.error), map[]; }
    r, byName := ParseFromNames(utf8, reader, headers.value);
  }
}
