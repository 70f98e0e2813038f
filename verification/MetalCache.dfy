/**
 Matrix views cached by address (`crates/marian-metal/src/metal_runtime.rs`): although addresses are reused after the
 last reference to a buffer is gone, a lookup always returns what a fresh construction would return.
 */
module MetalCache {
  import opened Base

  const MPS_SHAPE_CACHE_LIMIT: nat := 64

  /** How long the views of a buffer are kept. */
  datatype Lifetime = Uncached | Permanent | Request

  /** A buffer object; objects are told apart by number, not by address. */
  datatype Buffer = Buffer(id: nat, lifetime: Lifetime)

  /** A matrix view over a buffer object. */
  datatype View = View(buffer: nat, rows: nat, columns: nat)

  type Key = (nat, nat, nat)

  /** A cached view, and the buffer object retained beside it. */
  datatype Entry = Entry(view: View, retained: nat)

  type Cache = map<Key, Entry>

  /** Where objects lie, and how many references exist outside the caches; an object lives while anyone refers to it. */
  datatype Heap = Heap(addresses: map<nat, nat>, references: map<nat, nat>)

  datatype State = State(heap: Heap, permanent: Cache, request: Cache)

  function Fresh(b: Buffer, rows: nat, columns: nat): View {
    View(b.id, rows, columns)
  }

  predicate Retains(c: Cache, id: nat) {
    exists k :: k in c && c[k].retained == id
  }

  predicate Referenced(heap: Heap, id: nat) {
    id in heap.references && heap.references[id] > 0
  }

  predicate Live(s: State, id: nat) {
    Referenced(s.heap, id) || Retains(s.permanent, id) || Retains(s.request, id)
  }

  // ---------------------------------------------------------------------------------- what every run keeps

  /** An entry stands under the address of the object it retains, and its view is of that object. */
  ghost predicate EntriesOk(s: State, c: Cache) {
    forall k: Key {:trigger c[k]} :: k in c ==>
      && c[k].retained in s.heap.addresses && s.heap.addresses[c[k].retained] == k.0
      && c[k].view == View(c[k].retained, k.1, k.2)
  }

  /** Living objects have addresses, and no two the same. */
  ghost predicate AddressesOk(s: State) {
    && (forall id: nat {:trigger Live(s, id)} :: Live(s, id) ==> id in s.heap.addresses)
    && (forall i: nat, j: nat {:trigger Live(s, i), Live(s, j)} ::
          Live(s, i) && Live(s, j) && i in s.heap.addresses && j in s.heap.addresses && s.heap.addresses[i] == s.heap.addresses[j] ==> i == j)
  }

  ghost predicate Inv(s: State) {
    EntriesOk(s, s.permanent) && EntriesOk(s, s.request) && AddressesOk(s)
  }

  // ---------------------------------------------------------------------------------- steps

  datatype Step =
    | Allocate(id: nat, address: nat)
    | Clone(id: nat)
    | Drop(id: nat)
    | Lookup(buffer: Buffer, rows: nat, columns: nat)
    | BeginRequest

  predicate Enabled(s: State, step: Step) {
    match step
    case Allocate(id, address) =>
      id !in s.heap.addresses && !AddressInUse(s, address)
    case Clone(id) => Referenced(s.heap, id)
    case Drop(id) => Referenced(s.heap, id)
    case Lookup(buffer, _, _) => Referenced(s.heap, buffer.id)
    case BeginRequest => true
  }

  /** An allocator may reuse the address of any object that no longer lives. */
  predicate AddressInUse(s: State, address: nat) {
    exists id :: id in s.heap.addresses && Live(s, id) && s.heap.addresses[id] == address
  }

  function KeyOf(s: State, b: Buffer, rows: nat, columns: nat): Key
    requires b.id in s.heap.addresses
  {
    (s.heap.addresses[b.id], rows, columns)
  }

  /** The cached view, if there is one, else a new one. */
  function Found(c: Cache, key: Key, b: Buffer): View {
    if key in c then c[key].view else View(b.id, key.1, key.2)
  }

  function Kept(c: Cache, key: Key, b: Buffer): Cache {
    if key in c then c else c[key := Entry(View(b.id, key.1, key.2), b.id)]
  }

  /** `mps_matrix`: the view it returns. */
  function LookupView(s: State, b: Buffer, rows: nat, columns: nat): View
    requires b.id in s.heap.addresses
  {
    match b.lifetime
    case Uncached => View(b.id, rows, columns)
    case Permanent => Found(s.permanent, KeyOf(s, b, rows, columns), b)
    case Request => Found(s.request, KeyOf(s, b, rows, columns), b)
  }

  /** `mps_matrix`: what it leaves behind. */
  function LookupState(s: State, b: Buffer, rows: nat, columns: nat): State
    requires b.id in s.heap.addresses
  {
    match b.lifetime
    case Uncached => s
    case Permanent => s.(permanent := Kept(s.permanent, KeyOf(s, b, rows, columns), b))
    case Request => s.(request := Kept(s.request, KeyOf(s, b, rows, columns), b))
  }

  function Apply(s: State, step: Step): State
    requires Enabled(s, step)
  {
    match step
    case Allocate(id, address) => s.(heap := Heap(s.heap.addresses[id := address], s.heap.references[id := 1]))
    case Clone(id) => s.(heap := s.heap.(references := s.heap.references[id := s.heap.references[id] + 1]))
    case Drop(id) => s.(heap := s.heap.(references := s.heap.references[id := s.heap.references[id] - 1]))
    case Lookup(b, rows, columns) => if b.id in s.heap.addresses then LookupState(s, b, rows, columns) else s
    case BeginRequest => s.(request := map[])
  }

  // ---------------------------------------------------------------------------------- proofs

  /** A lookup of a living buffer returns the view that a fresh construction gives. */
  lemma LookupIsFresh(s: State, b: Buffer, rows: nat, columns: nat)
    requires Inv(s) && Live(s, b.id)
    ensures b.id in s.heap.addresses && LookupView(s, b, rows, columns) == Fresh(b, rows, columns)
  {
    var key := KeyOf(s, b, rows, columns);
    if b.lifetime.Permanent? && key in s.permanent {
      assert Retains(s.permanent, s.permanent[key].retained);
      assert Live(s, s.permanent[key].retained);
    }
    if b.lifetime.Request? && key in s.request {
      assert Retains(s.request, s.request[key].retained);
      assert Live(s, s.request[key].retained);
    }
  }

  lemma AllocateKeeps(s: State, id: nat, address: nat)
    requires Inv(s) && Enabled(s, Allocate(id, address))
    ensures Inv(Apply(s, Allocate(id, address)))
  {
    var t := Apply(s, Allocate(id, address));
    forall i: nat | Live(t, i) ensures i == id || Live(s, i) { }
  }

  lemma LivesLess(s: State, t: State)
    requires Inv(s) && t.heap.addresses == s.heap.addresses && forall i: nat :: Live(t, i) ==> Live(s, i)
    ensures AddressesOk(t)
  {
    forall i: nat | Live(t, i) ensures i in t.heap.addresses { assert Live(s, i); }
    forall i: nat, j: nat | Live(t, i) && Live(t, j) && i in t.heap.addresses && j in t.heap.addresses
                            && t.heap.addresses[i] == t.heap.addresses[j]
      ensures i == j
    {
      assert Live(s, i) && Live(s, j);
    }
  }

  lemma ReferencesKeep(s: State, id: nat, count: nat)
    requires Inv(s) && Referenced(s.heap, id)
    ensures Inv(s.(heap := s.heap.(references := s.heap.references[id := count])))
  {
    var t := s.(heap := s.heap.(references := s.heap.references[id := count]));
    forall i: nat | Live(t, i) ensures Live(s, i) { }
    LivesLess(s, t);
  }

  lemma RetainedByKept(c: Cache, key: Key, b: Buffer, id: nat)
    ensures Retains(Kept(c, key, b), id) ==> Retains(c, id) || id == b.id
  {
    if Retains(Kept(c, key, b), id) {
      var k :| k in Kept(c, key, b) && Kept(c, key, b)[k].retained == id;
      if k in c && !(key !in c && k == key) { assert c[k].retained == id; }
    }
  }

  lemma LookupKeeps(s: State, b: Buffer, rows: nat, columns: nat)
    requires Inv(s) && Referenced(s.heap, b.id) && b.id in s.heap.addresses
    ensures Inv(LookupState(s, b, rows, columns))
  {
    var t, key := LookupState(s, b, rows, columns), KeyOf(s, b, rows, columns);
    forall i: nat | Live(t, i) ensures Live(s, i) {
      RetainedByKept(s.permanent, key, b, i);
      RetainedByKept(s.request, key, b, i);
    }
    LivesLess(s, t);
  }

  lemma BeginRequestKeeps(s: State)
    requires Inv(s)
    ensures Inv(s.(request := map[]))
  {
    var t := s.(request := map[]);
    forall i: nat | Live(t, i) ensures Live(s, i) { }
    LivesLess(s, t);
  }

  lemma StepKeepsInv(s: State, step: Step)
    requires Inv(s) && Enabled(s, step)
    ensures Inv(Apply(s, step))
  {
    match step
    case Allocate(id, address) => AllocateKeeps(s, id, address);
    case Clone(id) => ReferencesKeep(s, id, s.heap.references[id] + 1);
    case Drop(id) => ReferencesKeep(s, id, s.heap.references[id] - 1);
    case Lookup(b, rows, columns) =>
      assert Live(s, b.id);
      LookupKeeps(s, b, rows, columns);
    case BeginRequest => BeginRequestKeeps(s);
  }

  const EMPTY: State := State(Heap(map[], map[]), map[], map[])

  ghost predicate StepAt(trace: seq<State>, steps: seq<Step>, i: nat)
    requires |trace| == |steps| + 1 && i < |steps|
  {
    Enabled(trace[i], steps[i]) && trace[i + 1] == Apply(trace[i], steps[i])
  }

  ghost predicate IsRun(trace: seq<State>, steps: seq<Step>) {
    |trace| == |steps| + 1 && trace[0] == EMPTY && forall i: nat :: i < |steps| ==> StepAt(trace, steps, i)
  }

  lemma {:induction false} RunsKeepInv(trace: seq<State>, steps: seq<Step>, n: nat)
    requires IsRun(trace, steps) && n < |trace|
    ensures Inv(trace[n])
  {
    if n > 0 {
      RunsKeepInv(trace, steps, n - 1);
      assert StepAt(trace, steps, n - 1);
      StepKeepsInv(trace[n - 1], steps[n - 1]);
    }
  }

  /** In every run, a lookup agrees with no cache at all. */
  lemma CacheAgreesWithNoCache(trace: seq<State>, steps: seq<Step>, n: nat)
    requires IsRun(trace, steps) && n < |steps| && steps[n].Lookup?
    ensures var b := steps[n].buffer;
            && b.id in trace[n].heap.addresses
            && LookupView(trace[n], b, steps[n].rows, steps[n].columns) == Fresh(b, steps[n].rows, steps[n].columns)
  {
    RunsKeepInv(trace, steps, n);
    assert StepAt(trace, steps, n);
    assert Live(trace[n], steps[n].buffer.id);
    LookupIsFresh(trace[n], steps[n].buffer, steps[n].rows, steps[n].columns);
  }

  // ---------------------------------------------------------------------------------- the runtime as it runs

  const USIZE_END: nat := 0x1_0000_0000_0000_0000

  datatype Error = BufferSize

  /** A descriptor holds nothing but its shape and row size. */
  datatype Descriptor = Descriptor(rows: nat, columns: nat, rowBytes: nat)

  datatype Kernel = Kernel(rows: nat, columns: nat, inner: nat)

  /** Every cached value is the one its key stands for, and would be constructed again. */
  ghost predicate DescriptorsOk(c: map<(nat, nat), Descriptor>) {
    |c| <= MPS_SHAPE_CACHE_LIMIT
    && forall r: nat, k: nat {:trigger c[(r, k)]} :: (r, k) in c ==> c[(r, k)] == Descriptor(r, k, 4 * k) && 0 < 4 * k < USIZE_END
  }

  ghost predicate KernelsOk(c: map<(nat, nat, nat), Kernel>) {
    |c| <= MPS_SHAPE_CACHE_LIMIT
    && forall r: nat, k: nat, i: nat {:trigger c[(r, k, i)]} :: (r, k, i) in c ==> c[(r, k, i)] == Kernel(r, k, i)
  }

  /** `insert_bounded`: a full cache is emptied first. */
  function InsertBounded<K, V>(c: map<K, V>, key: K, value: V): (r: map<K, V>)
    requires |c| <= MPS_SHAPE_CACHE_LIMIT
    ensures key in r && r[key] == value && |r| <= MPS_SHAPE_CACHE_LIMIT
    ensures forall k :: k in r && k != key ==> k in c && r[k] == c[k]
  {
    if |c| >= MPS_SHAPE_CACHE_LIMIT then map[key := value]
    else
      assert c[key := value].Keys == c.Keys + {key};
      c[key := value]
  }

  class MetalRuntime {
    var descriptors: map<(nat, nat), Descriptor>
    var kernels: map<(nat, nat, nat), Kernel>
    var permanent: Cache
    var request: Cache

    ghost predicate Valid(heap: Heap)
      reads this
    {
      Inv(State(heap, permanent, request)) && DescriptorsOk(descriptors) && KernelsOk(kernels)
    }

    constructor (ghost heap: Heap)
      requires Inv(State(heap, map[], map[]))
      ensures Valid(heap)
    {
      descriptors, kernels, permanent, request := map[], map[], map[], map[];
    }

    method MpsDescriptor(rows: nat, columns: nat, ghost heap: Heap) returns (r: Result<Descriptor, Error>)
      requires Valid(heap)
      modifies this
      ensures Valid(heap) && permanent == old(permanent) && request == old(request) && kernels == old(kernels)
      ensures r == if 0 < 4 * columns < USIZE_END then Ok(Descriptor(rows, columns, 4 * columns)) else Err(BufferSize)
    {
      if (rows, columns) in descriptors { return Ok(descriptors[(rows, columns)]); }
      if !(0 < 4 * columns < USIZE_END) { return Err(BufferSize); }
      var descriptor := Descriptor(rows, columns, 4 * columns);
      descriptors := InsertBounded(descriptors, (rows, columns), descriptor);
      return Ok(descriptor);
    }

    method MpsMatmulKernel(rows: nat, columns: nat, inner: nat, ghost heap: Heap) returns (kernel: Kernel)
      requires Valid(heap)
      modifies this
      ensures Valid(heap) && permanent == old(permanent) && request == old(request) && descriptors == old(descriptors)
      ensures kernel == Kernel(rows, columns, inner)
    {
      if (rows, columns, inner) in kernels { return kernels[(rows, columns, inner)]; }
      kernel := Kernel(rows, columns, inner);
      kernels := InsertBounded(kernels, (rows, columns, inner), kernel);
    }

    /** `mps_matrix`: always the view of this buffer, and the caches move as the functions say. */
    method MpsMatrix(b: Buffer, address: nat, rows: nat, columns: nat, ghost heap: Heap) returns (r: Result<View, Error>)
      requires Valid(heap) && Referenced(heap, b.id) && b.id in heap.addresses && heap.addresses[b.id] == address
      modifies this
      ensures Valid(heap)
      ensures r.Ok? <==> 0 < 4 * columns < USIZE_END
      ensures r.Ok? ==> r.value == Fresh(b, rows, columns)
      ensures r.Ok? ==> State(heap, permanent, request) == LookupState(old(State(heap, permanent, request)), b, rows, columns)
      ensures r.Err? ==> permanent == old(permanent) && request == old(request)
    {
      ghost var s := State(heap, permanent, request);
      assert Live(s, b.id);
      LookupIsFresh(s, b, rows, columns);
      LookupKeeps(s, b, rows, columns);
      var descriptor := MpsDescriptor(rows, columns, heap);
      if descriptor.Err? { return Err(descriptor.error); }
      var key := (address, rows, columns);
      match b.lifetime {
        case Uncached => return Ok(View(b.id, rows, columns));
        case Permanent =>
          r := Ok(Found(permanent, key, b));
          permanent := Kept(permanent, key, b);
        case Request =>
          r := Ok(Found(request, key, b));
          request := Kept(request, key, b);
      }
    }

    /** `begin_request`: views of reusable allocations are forgotten, those of model weights stay. */
    method BeginRequest(ghost heap: Heap)
      requires Valid(heap)
      modifies this
      ensures Valid(heap) && request == map[] && permanent == old(permanent) && descriptors == old(descriptors) && kernels == old(kernels)
    {
      BeginRequestKeeps(State(heap, permanent, request));
      request := map[];
    }
  }
}
