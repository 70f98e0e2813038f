/**
 Reusable Metal storage (`crates/marian-metal/src/workspace.rs`): within one frame an arena never hands out the
 same allocation twice, and never one that is too small.
 */
module MetalArena {
  import opened Base
  import opened Distinct

  const USIZE_END: nat := 0x1_0000_0000_0000_0000

  /** An allocation: its number, and its size in bytes. */
  datatype Buffer = Buffer(id: nat, bytes: nat)

  datatype Error = Size | OutOfMemory | FrameActive | NestedFrame | NoFrame

  function Numbers(buffers: seq<Buffer>): (ids: seq<nat>)
    ensures |ids| == |buffers|
  {
    seq(|buffers|, i requires 0 <= i < |buffers| => buffers[i].id)
  }

  /** What the device answers to a request for a new allocation: a number no buffer at hand has, or nothing. */
  type Device = Option<nat>

  class BufferArena {
    var buffers: seq<Buffer>
    var cursor: nat
    /** What was asked for since the last rewind. */
    ghost var requests: seq<nat>

    /** Distinct allocations; those before the cursor belong to this frame, each large enough for its request. */
    ghost predicate Valid()
      reads this
    {
      && NoRepeats(Numbers(buffers)) && cursor == |requests| <= |buffers|
      && forall i :: 0 <= i < cursor ==> requests[i] <= buffers[i].bytes
    }

    constructor ()
      ensures Valid() && buffers == [] && requests == []
    {
      buffers, cursor, requests := [], 0, [];
    }

    /** A new frame. It also mends an arena whose last growth failed. */
    method Rewind()
      requires NoRepeats(Numbers(buffers))
      modifies this
      ensures Valid() && buffers == old(buffers) && requests == []
    {
      cursor, requests := 0, [];
    }

    /** `take`: the next slot, grown or replaced if need be. A growth that fails leaves the frame unusable until the next one. */
    method Take(elements: nat, size: nat, device: Device) returns (r: Result<Buffer, Error>)
      requires Valid() && size > 0 && (device.Some? ==> device.value !in Numbers(buffers))
      modifies this
      ensures r == Err(Size) <==> elements * size == 0 || elements * size >= USIZE_END
      ensures r == Err(Size) ==> Valid() && buffers == old(buffers) && cursor == old(cursor) && requests == old(requests)
      ensures r.Ok? ==> Valid() && requests == old(requests) + [elements * size] && r.value.bytes >= elements * size
      ensures r.Ok? ==> cursor == old(cursor) + 1 && r.value == buffers[old(cursor)]
      ensures r.Ok? && old(cursor) < |old(buffers)| && old(buffers)[old(cursor)].bytes >= elements * size ==> buffers == old(buffers)
      ensures r.Ok? ==> forall i :: 0 <= i < |old(buffers)| && i != old(cursor) ==> i < |buffers| && buffers[i] == old(buffers)[i]
      ensures forall i :: 0 <= i < |buffers| ==>
                buffers[i] in old(buffers) || (device.Some? && buffers[i] == Buffer(device.value, elements * size))
      ensures r.Err? ==> r.error == Size || r.error == OutOfMemory
      ensures r == Err(OutOfMemory) ==> device.None? && buffers == old(buffers) && cursor == old(cursor) + 1
      ensures NoRepeats(Numbers(buffers))
    {
      var required := elements * size;
      if required == 0 || required >= USIZE_END { return Err(Size); }
      var slot := cursor;
      cursor := cursor + 1;
      if slot == |buffers| {
        if device.None? { return Err(OutOfMemory); }
        NoRepeatsGrown(buffers, Buffer(device.value, required));
        buffers := buffers + [Buffer(device.value, required)];
      } else if buffers[slot].bytes < required {
        if device.None? { return Err(OutOfMemory); }
        NoRepeatsReplaced(buffers, slot, Buffer(device.value, required));
        buffers := buffers[slot := Buffer(device.value, required)];
      }
      requests := requests + [required];
      return Ok(buffers[slot]);
    }
  }

  lemma NoRepeatsGrown(buffers: seq<Buffer>, b: Buffer)
    requires NoRepeats(Numbers(buffers)) && b.id !in Numbers(buffers)
    ensures NoRepeats(Numbers(buffers + [b]))
  {
    assert Numbers(buffers + [b]) == Numbers(buffers) + [b.id];
  }

  lemma NoRepeatsReplaced(buffers: seq<Buffer>, slot: nat, b: Buffer)
    requires NoRepeats(Numbers(buffers)) && b.id !in Numbers(buffers) && slot < |buffers|
    ensures NoRepeats(Numbers(buffers[slot := b]))
  {
    assert Numbers(buffers[slot := b]) == Numbers(buffers)[slot := b.id];
  }

  /** Takes several buffers in one frame: pairwise distinct, and each large enough. */
  method TakeAll(arena: BufferArena, counts: seq<nat>, size: nat, devices: seq<Device>) returns (r: Result<seq<Buffer>, Error>)
    requires arena.Valid() && arena.requests == [] && |devices| == |counts| && size > 0
    requires forall i :: 0 <= i < |devices| && devices[i].Some? ==> devices[i].value !in Numbers(arena.buffers)
    requires forall i, j :: 0 <= i < j < |devices| && devices[i].Some? && devices[j].Some? ==> devices[i].value != devices[j].value
    modifies arena
    ensures r.Ok? ==> |r.value| == |counts| && NoRepeats(Numbers(r.value))
    ensures r.Ok? ==> forall i :: 0 <= i < |counts| ==> r.value[i].bytes >= counts[i] * size
  {
    ghost var before := arena.buffers;
    var taken: seq<Buffer> := [];
    for i := 0 to |counts|
      invariant arena.Valid() && arena.cursor == i == |taken| && taken == arena.buffers[..i]
      invariant forall k :: 0 <= k < i ==> arena.requests[k] == counts[k] * size
      invariant forall b :: b in arena.buffers ==>
                  b in before || exists k :: 0 <= k < i && devices[k].Some? && devices[k].value == b.id
    {
      FreshNumber(arena.buffers, before, devices, i);
      var one := arena.Take(counts[i], size, devices[i]);
      if one.Err? { return Err(one.error); }
      taken := taken + [one.value];
    }
    forall i, j | 0 <= i < j < |taken| ensures Numbers(taken)[i] != Numbers(taken)[j] {
      assert Numbers(arena.buffers)[i] != Numbers(arena.buffers)[j];
    }
    return Ok(taken);
  }

  lemma MemberNumber(buffers: seq<Buffer>, b: Buffer)
    requires b in buffers
    ensures b.id in Numbers(buffers)
  {
    var p :| 0 <= p < |buffers| && buffers[p] == b;
    assert Numbers(buffers)[p] == b.id;
  }

  lemma FreshNumber(buffers: seq<Buffer>, before: seq<Buffer>, devices: seq<Device>, i: nat)
    requires i < |devices|
    requires forall k :: 0 <= k < |devices| && devices[k].Some? ==> devices[k].value !in Numbers(before)
    requires forall k, j :: 0 <= k < j < |devices| && devices[k].Some? && devices[j].Some? ==> devices[k].value != devices[j].value
    requires forall b :: b in buffers ==> b in before || exists k :: 0 <= k < i && devices[k].Some? && devices[k].value == b.id
    ensures devices[i].Some? ==> devices[i].value !in Numbers(buffers)
  {
    if devices[i].Some? && devices[i].value in Numbers(buffers) {
      var m :| 0 <= m < |buffers| && Numbers(buffers)[m] == devices[i].value;
      assert buffers[m] in buffers;
      if buffers[m] in before {
        MemberNumber(before, buffers[m]);
      }
    }
  }

  /** The arenas of a request and of a transient frame, and whether such a frame is open. */
  class Workspace {
    const request: BufferArena
    const transient: BufferArena
    var transientActive: bool

    ghost predicate Valid()
      reads this, request, transient
    {
      Apart() && request.Valid() && transient.Valid()
    }

    /** What a failed growth leaves intact, and all that a new frame needs. */
    ghost predicate Apart()
      reads this, request, transient
    {
      request != transient && NoRepeats(Numbers(request.buffers)) && NoRepeats(Numbers(transient.buffers))
    }

    constructor ()
      ensures Valid() && !transientActive && fresh(request) && fresh(transient)
    {
      request := new BufferArena();
      transient := new BufferArena();
      transientActive := false;
    }

    /** `begin_request`: rewinds both arenas, but not inside a transient frame. */
    method BeginRequest() returns (r: Result<(), Error>)
      requires Apart()
      modifies this, request, transient
      ensures Apart() && transientActive == old(transientActive)
      ensures r.Ok? || old(Valid()) ==> Valid()
      ensures r == if old(transientActive) then Err(FrameActive) else Ok(())
      ensures r.Ok? ==> request.requests == [] && transient.requests == []
      ensures r.Err? ==> request.requests == old(request.requests) && transient.requests == old(transient.requests)
    {
      if transientActive { return Err(FrameActive); }
      request.Rewind();
      transient.Rewind();
      return Ok(());
    }

    /** `begin_transient`: opens a frame over the transient arena; what the request holds stays. */
    method BeginTransient() returns (r: Result<(), Error>)
      requires Apart()
      modifies this, transient
      ensures Apart() && transientActive
      ensures r.Ok? ==> transient.Valid()
      ensures old(Valid()) || (r.Ok? && old(request.Valid())) ==> Valid()
      ensures r == if old(transientActive) then Err(NestedFrame) else Ok(())
      ensures r.Ok? ==> transient.requests == []
      ensures r.Err? ==> transient.requests == old(transient.requests) && transient.buffers == old(transient.buffers)
      ensures request.buffers == old(request.buffers) && request.cursor == old(request.cursor)
    {
      if transientActive { return Err(NestedFrame); }
      transientActive := true;
      transient.Rewind();
      return Ok(());
    }

    /** The frame's guard is dropped. */
    method EndTransient()
      requires Apart()
      modifies this`transientActive
      ensures Apart() && !transientActive && (old(Valid()) ==> Valid())
    {
      transientActive := false;
    }

    /** `transient`: only inside a frame, and never touching what the request holds. */
    method TakeTransient(elements: nat, size: nat, device: Device) returns (r: Result<Buffer, Error>)
      requires Apart() && transient.Valid() && size > 0 && (device.Some? ==> device.value !in Numbers(transient.buffers))
      modifies transient
      ensures Apart() && (r.Ok? || r.error != OutOfMemory ==> transient.Valid())
      ensures r == Err(NoFrame) <==> !transientActive
      ensures r.Ok? ==> r.value.bytes >= elements * size && transient.requests == old(transient.requests) + [elements * size]
      ensures r.Err? && r.error != OutOfMemory ==> transient.buffers == old(transient.buffers) && transient.requests == old(transient.requests)
    {
      if !transientActive { return Err(NoFrame); }
      r := transient.Take(elements, size, device);
    }
  }
}
