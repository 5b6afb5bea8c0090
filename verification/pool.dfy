/** The bump-allocated memory pool of `src/util/pool.rs`.

    An `MMapArena<T>` reserves one region of `regionLen` bytes and hands out slots of
    `size_of::<T>()` bytes in order, never freeing one. Raw pointers become slot indices:
    a `Handle` is `At(i)` for slot `i`, or `Null` (what a zero-sized arena hands out).
    The region is an `array` whose identity never changes, as the mapping's base address
    never changes. A `Pool` pairs a content arena with a metadata arena index for index.
 */
module Pool {
  import opened Outcomes

  /** 64 MiB: the byte size of every arena a `Pool` creates. */
  const ARENA_SIZE_BYTES: nat := 64 * 1024 * 1024

  const ARENA_EXHAUSTED := "Arena memory exhausted"

  /** A pointer to a slot; `Null` is the null pointer. */
  datatype Handle = Null | At(index: nat) {
    /** A slot index is always aligned, so only the null pointer is invalid. */
    predicate IsInvalid() {
      Null?
    }
  }

  /** The content of one slot: mapped memory is uninitialised until something is written. */
  datatype Slot<T> = Uninit | Init(value: T)

  /** `c` slots of `e` bytes fit in `len` bytes exactly when `c` is at most `len / e`. */
  lemma SlotsFit(c: nat, e: nat, len: nat)
    requires e > 0
    ensures c * e <= len <==> c <= len / e
  {
    var q := len / e;
    assert q * e <= len < (q + 1) * e;
    if c <= q {
      MulMonotonic(c, q, e);
    } else {
      MulMonotonic(q + 1, c, e);
    }
  }

  lemma MulMonotonic(a: nat, b: nat, e: nat)
    requires a <= b
    ensures a * e <= b * e
  {
  }

  class MMapArena<T> {
    /** `size_of::<T>()`. */
    const elemSize: nat
    /** The mapped length in bytes; nothing is mapped for a zero-sized `T`. */
    const regionLen: nat
    /** The mapped region, one entry per slot that fits in it. */
    const slots: array<Slot<T>>
    /** The number of slots handed out so far. */
    var count: nat

    ghost predicate Valid()
      reads this, slots
    {
      slots.Length == (if elemSize == 0 then 0 else regionLen / elemSize) &&
      (elemSize == 0 ==> regionLen == 0 && count == 0) &&
      count * elemSize <= regionLen &&
      count <= slots.Length &&
      forall i :: count <= i < slots.Length ==> slots[i] == Uninit
    }

    /** The slots handed out so far, in allocation order. */
    ghost function Allocated(): seq<Slot<T>>
      reads this, slots
      requires Valid()
    {
      slots[..count]
    }

    /** `MMapArena::new(size)`: a zero-sized `T` maps nothing. */
    constructor (size: nat, elemSize: nat)
      ensures Valid() && fresh(slots)
      ensures this.elemSize == elemSize && count == 0
      ensures regionLen == if elemSize == 0 then 0 else size
      ensures slots.Length == if elemSize == 0 then 0 else size / elemSize
    {
      this.elemSize := elemSize;
      regionLen := if elemSize == 0 then 0 else size;
      slots := new Slot<T>[if elemSize == 0 then 0 else size / elemSize](_ => Uninit);
      count := 0;
    }

    /** `alloc`: the next slot, or a panic once the region cannot hold one more element. */
    method Alloc() returns (r: Outcome<Handle>)
      requires Valid()
      modifies this`count
      ensures Valid()
      ensures elemSize == 0 ==> r == Ok(Null) && count == old(count)
      ensures elemSize > 0 ==> (r.Panic? <==> (old(count) + 1) * elemSize > regionLen)
      ensures r.Panic? ==> r.msg == ARENA_EXHAUSTED && count == old(count)
      ensures elemSize > 0 && r.Ok? ==>
                r.value == At(old(count)) && count == old(count) + 1 &&
                Allocated() == old(Allocated()) + [Uninit]
    {
      if elemSize == 0 {
        return Ok(Null);
      }
      if (count + 1) * elemSize > regionLen {
        return Panic(ARENA_EXHAUSTED);
      }
      SlotsFit(count + 1, elemSize, regionLen);
      r := Ok(At(count));
      count := count + 1;
    }

    /** Whether `h` is a handle this arena has handed out. */
    ghost predicate Produced(h: Handle)
      reads this
    {
      if elemSize == 0 then h == Null else h.At? && h.index < count
    }

    /** `index_of`: the slot a handle points at. For a zero-sized `T` the source reads the
        unmapped store in `start()`, which is undefined; the model panics there instead, with
        the message `offset_from` would give. */
    function IndexOf(h: Handle): (r: Outcome<nat>)
      reads this
      requires Produced(h)
      ensures r.Panic? <==> elemSize == 0
      ensures r.Ok? ==> r.value < count && AtIndex(r.value) == h
    {
      if elemSize == 0 then
        Panic("assertion failed: 0 < pointee_size && pointee_size <= isize::MAX as usize")
      else
        Ok(h.index)
    }

    /** `at_index_ref`/`at_index_mut`: the address of slot `index`, not range checked. */
    function AtIndex(index: nat): (h: Handle)
      reads this
      requires elemSize > 0
      ensures !h.IsInvalid() && h.index == index
      ensures Produced(h) <==> index < count
    {
      At(index)
    }
  }

  /** Slot addressing and index recovery are inverse on every allocated slot. */
  lemma IndexRoundTrip<T>(a: MMapArena<T>, i: nat)
    requires a.elemSize > 0 && i < a.count
    ensures a.Produced(a.AtIndex(i)) && a.IndexOf(a.AtIndex(i)) == Ok(i)
  {
  }

  /** A handle an arena hands out is invalid exactly when the arena's `T` is zero-sized,
      for which `alloc` returns the null pointer. */
  lemma ProducedIsInvalid<T>(a: MMapArena<T>, h: Handle)
    requires a.Valid() && a.Produced(h)
    ensures h.IsInvalid() <==> a.elemSize == 0
  {
  }

  /** Exactly `regionLen / elemSize` allocations succeed: one more succeeds iff a slot is left. */
  lemma AllocSucceedsIffRoom<T>(a: MMapArena<T>)
    requires a.Valid() && a.elemSize > 0
    ensures (a.count + 1) * a.elemSize <= a.regionLen <==> a.count < a.slots.Length
  {
    SlotsFit(a.count + 1, a.elemSize, a.regionLen);
  }

  /** `as_array`: a view over the slots `0..length` of a content arena. */
  datatype HandleArray = HandleArray(length: nat) {

    /** `at`: the handle of slot `index`; like the source, not range checked. */
    function At(index: nat): (h: Handle)
      ensures !h.IsInvalid() && h.index == index
    {
      Handle.At(index)
    }

    function Len(): (n: nat)
      ensures n == |Handles()|
    {
      length
    }

    function IsEmpty(): (b: bool)
      ensures b <==> Len() == 0
    {
      length == 0
    }

    /** The handles the view denotes, in slot order. */
    ghost function Handles(): (hs: seq<Handle>)
      ensures |hs| == length
      ensures forall i :: 0 <= i < length ==> hs[i] == At(i)
    {
      seq(length, (i: int) requires 0 <= i => Handle.At(i))
    }

    /** `last`: `None` exactly for the empty view, otherwise the final handle of the view. */
    function Last(): (r: Option<Handle>)
      ensures r.None? <==> IsEmpty()
      ensures r.Some? ==> r.value == Handles()[length - 1]
    {
      if IsEmpty() then None else Some(At(Len() - 1))
    }
  }

  /** `HandleArrayIterator`, created by `into_iter` at index 0. */
  class HandleArrayIterator {
    const view: HandleArray
    var index: nat
    /** The handles `next` has returned so far. */
    ghost var yielded: seq<Handle>

    ghost predicate Valid()
      reads this
    {
      index <= view.length && yielded == view.Handles()[..index]
    }

    /** `into_iter`. */
    constructor (a: HandleArray)
      ensures Valid() && this.view == a && index == 0 && yielded == []
    {
      this.view := a;
      index := 0;
      yielded := [];
    }

    /** `next`: slot `index`, or `None` once the whole view has been yielded. */
    method Next() returns (r: Option<Handle>)
      requires Valid()
      modifies this
      ensures Valid()
      ensures old(index) == view.length ==> r == None && index == old(index)
      ensures old(index) < view.length ==>
                r == Some(view.At(old(index))) && index == old(index) + 1
      ensures yielded == old(yielded) + (if r.Some? then [r.value] else [])
      ensures r.None? ==> yielded == view.Handles()
    {
      if index == view.Len() {
        r := None;
      } else {
        r := Some(view.At(index));
        index := index + 1;
        yielded := yielded + [r.value];
      }
    }

    /** `ExactSizeIterator::len`: the length of the whole view, however far iteration got. */
    function Len(): (n: nat)
      reads this
      requires Valid()
      ensures n == |view.Handles()| && n >= |yielded|
    {
      view.Len()
    }
  }

  /** A pool as a value: the element size and region length of each arena, the number of
      `add` calls and the values stored. Parsers that own a pool are specified over it. */
  datatype PoolView<Value> = PoolView(
    valueSize: nat,
    valueRegion: nat,
    metadataSize: nat,
    metadataRegion: nat,
    adds: nat,
    values: seq<Value>)

  /** Whether both arenas have room for one more slot (a zero-sized arena always has). */
  predicate HasRoom<Value>(v: PoolView<Value>) {
    (v.valueSize == 0 || (v.adds + 1) * v.valueSize <= v.valueRegion) &&
    (v.metadataSize == 0 || (v.adds + 1) * v.metadataSize <= v.metadataRegion)
  }

  /** `add` on a pool value: the pool after it and the handle returned. */
  function AddToView<Value>(v: PoolView<Value>, value: Value): (r: Outcome<(PoolView<Value>, Handle)>)
    ensures r.Ok? <==> HasRoom(v)
    ensures r.Panic? ==> r.msg == ARENA_EXHAUSTED
    ensures r.Ok? ==>
              var (after, h) := r.value;
              after.adds == v.adds + 1 &&
              after == v.(adds := after.adds, values := after.values) &&
              (v.valueSize == 0 ==> h == Null && after.values == v.values) &&
              (v.valueSize > 0 ==> h == At(v.adds) && after.values == v.values + [value])
  {
    if !HasRoom(v) then Panic(ARENA_EXHAUSTED)
    else if v.valueSize == 0 then Ok((v.(adds := v.adds + 1), Null))
    else Ok((v.(adds := v.adds + 1, values := v.values + [value]), At(v.adds)))
  }

  /** `Pool<Value, Metadata>`: two arenas of `ARENA_SIZE_BYTES`, paired index for index. */
  class Pool<Value, Metadata> {
    const contents: MMapArena<Value>
    const metadata: MMapArena<Metadata>
    /** The values added so far, in slot order (kept for non-zero-sized values). */
    ghost var values: seq<Value>
    /** The metadata slots allocated so far, set or still uninitialised. */
    ghost var metas: seq<Slot<Metadata>>
    /** The number of successful `add` calls. */
    ghost var adds: nat

    ghost predicate Valid()
      reads this, contents, metadata, contents.slots, metadata.slots
    {
      contents as object != metadata as object &&
      contents.slots as object != metadata.slots as object &&
      ContentsHold(adds) && MetadataHold(adds)
    }

    /** The content arena has handed out a slot for each of `n` adds and holds `values`. */
    ghost predicate ContentsHold(n: nat)
      reads this, contents, contents.slots
    {
      contents.Valid() &&
      contents.count == (if contents.elemSize == 0 then 0 else n) &&
      |values| == contents.count &&
      forall i :: 0 <= i < contents.count ==> contents.slots[i] == Init(values[i])
    }

    /** The metadata arena has handed out a slot for each of `n` adds and holds `metas`. */
    ghost predicate MetadataHold(n: nat)
      reads this, metadata, metadata.slots
    {
      metadata.Valid() &&
      metadata.count == (if metadata.elemSize == 0 then 0 else n) &&
      |metas| == metadata.count &&
      forall i :: 0 <= i < metadata.count ==> metadata.slots[i] == metas[i]
    }

    /** Whether the metadata arena is mapped whenever a handle addresses a content slot. With
        a sized `Value` and a zero-sized `Metadata`, the source reads the `mmap` arm of a
        store holding `none`, which is undefined behaviour. */
    predicate MetadataMapped()
      reads this, contents, metadata
    {
      contents.elemSize > 0 ==> metadata.elemSize > 0
    }

    /** Whether both arenas hold real slots, so that metadata can be addressed by index. */
    predicate Sized()
      reads this, contents, metadata
    {
      contents.elemSize > 0 && metadata.elemSize > 0
    }

    /** Whether `h` is a handle this pool's `add` returned. */
    ghost predicate Holds(h: Handle)
      reads this, contents
    {
      h.At? && h.index < contents.count
    }

    /** `Pool::new()`: both arenas map `ARENA_SIZE_BYTES`. */
    constructor (valueSize: nat, metadataSize: nat)
      ensures Valid() && fresh(contents) && fresh(metadata)
      ensures fresh(contents.slots) && fresh(metadata.slots)
      ensures contents.elemSize == valueSize && metadata.elemSize == metadataSize
      ensures contents.regionLen == if valueSize == 0 then 0 else ARENA_SIZE_BYTES
      ensures metadata.regionLen == if metadataSize == 0 then 0 else ARENA_SIZE_BYTES
      ensures adds == 0 && values == [] && metas == []
    {
      contents := new MMapArena(ARENA_SIZE_BYTES, valueSize);
      metadata := new MMapArena(ARENA_SIZE_BYTES, metadataSize);
      values, metas, adds := [], [], 0;
    }

    /** The pool as a value. */
    ghost function View(): (v: PoolView<Value>)
      reads this, contents, metadata, contents.slots, metadata.slots
      requires Valid()
      ensures v.adds == adds && v.values == values
      ensures v.valueSize > 0 ==> |v.values| == v.adds
    {
      PoolView(contents.elemSize, contents.regionLen, metadata.elemSize, metadata.regionLen, adds, values)
    }

    /** `*handle`: the value stored at a handle. */
    function Get(h: Handle): (v: Value)
      reads this, contents, metadata, contents.slots, metadata.slots
      requires Valid() && Holds(h)
      ensures h.index < |values| && v == values[h.index]
    {
      contents.slots[h.index].value
    }

    /** `add`: stores `value` in a fresh content slot and allocates, without setting, the
        paired metadata slot. */
    method Add(value: Value) returns (r: Outcome<Handle>)
      requires Valid()
      modifies this, contents, metadata, contents.slots
      ensures r.Panic? <==>
                (contents.elemSize > 0 && (old(adds) + 1) * contents.elemSize > contents.regionLen) ||
                (metadata.elemSize > 0 && (old(adds) + 1) * metadata.elemSize > metadata.regionLen)
      ensures r.Panic? ==> r.msg == ARENA_EXHAUSTED
      ensures r.Ok? ==> Valid() && adds == old(adds) + 1
      ensures r.Ok? ==> r.value == if contents.elemSize == 0 then Null else At(old(adds))
      ensures r.Ok? ==>
                values == (if contents.elemSize == 0 then old(values) else old(values) + [value])
      ensures r.Ok? ==>
                metas == (if metadata.elemSize == 0 then old(metas) else old(metas) + [Uninit])
      ensures r.Ok? && contents.elemSize > 0 ==> Holds(r.value) && Get(r.value) == value
      ensures r.Ok? ==> AddToView(old(View()), value) == Ok((View(), r.value))
      ensures r.Panic? ==> AddToView(old(View()), value) == Panic(r.msg)
    {
      var next :- AddValue(value);
      var _ :- metadata.Alloc();
      metas := if metadata.elemSize == 0 then metas else metas + [Uninit];
      adds := adds + 1;
      r := Ok(next);
    }

    /** The content half of `add`: allocates the slot and writes the value into it. */
    method AddValue(value: Value) returns (r: Outcome<Handle>)
      requires Valid()
      modifies contents, contents.slots, this`values
      ensures MetadataHold(adds) && unchanged(metadata, metadata.slots)
      ensures contents.elemSize > 0 ==>
                (r.Panic? <==> (adds + 1) * contents.elemSize > contents.regionLen)
      ensures r.Panic? ==> r.msg == ARENA_EXHAUSTED && values == old(values)
      ensures contents.elemSize == 0 ==> r == Ok(Null) && ContentsHold(adds + 1) && values == old(values)
      ensures contents.elemSize > 0 && r.Ok? ==>
                r.value == At(adds) && ContentsHold(adds + 1) && values == old(values) + [value]
    {
      r := contents.Alloc();
      if r.Ok? && contents.elemSize > 0 {
        contents.slots[r.value.index] := Init(value);
        values := values + [value];
      }
    }

    /** `get_metadata`: the metadata last set for the handle's slot; it must have been set.
        For a zero-sized `Value` the model panics as `IndexOf` does. */
    function GetMetadata(h: Handle): (r: Outcome<Metadata>)
      reads this, contents, metadata, contents.slots, metadata.slots
      requires Valid() && MetadataMapped() && contents.Produced(h)
      requires contents.elemSize > 0 ==> metas[h.index].Init?
      ensures r.Panic? <==> contents.elemSize == 0
      ensures r.Ok? ==> h.index < |metas| && r.value == metas[h.index].value
    {
      var index :- contents.IndexOf(h);
      Ok(metadata.slots[index].value)
    }

    /** `set_metadata`: writes the metadata slot paired with the handle's slot. For a
        zero-sized `Value` the model panics as `IndexOf` does. */
    method SetMetadata(h: Handle, m: Metadata) returns (r: Outcome<()>)
      requires Valid() && MetadataMapped() && contents.Produced(h)
      modifies this, metadata.slots
      ensures Valid() && adds == old(adds) && values == old(values)
      ensures r.Panic? <==> contents.elemSize == 0
      ensures r.Panic? ==> metas == old(metas) && unchanged(metadata.slots)
      ensures r.Ok? ==> metas == old(metas)[h.index := Init(m)]
      ensures r.Ok? ==> GetMetadata(h) == Ok(m)
    {
      var index :- contents.IndexOf(h);
      metadata.slots[index] := Init(m);
      metas := metas[index := Init(m)];
      r := Ok(());
    }

    /** `duplicate`: copies the value and the metadata of `h` into a fresh slot pair. Its
        first step, `*handle`, dereferences the null handle of a zero-sized `Value`, so both
        arenas are taken to be sized. */
    method Duplicate(h: Handle) returns (r: Outcome<Handle>)
      requires Valid() && Sized() && Holds(h) && metas[h.index].Init?
      modifies this, contents, metadata, contents.slots, metadata.slots
      ensures r.Panic? <==>
                (old(adds) + 1) * contents.elemSize > contents.regionLen ||
                (old(adds) + 1) * metadata.elemSize > metadata.regionLen
      ensures r.Ok? ==> Valid() && adds == old(adds) + 1 && r.value == At(old(adds))
      ensures r.Ok? ==> values == old(values) + [old(Get(h))]
      ensures r.Ok? ==> metas == old(metas) + [Init(old(GetMetadata(h).value))]
      ensures r.Ok? ==> Get(r.value) == Get(h) && GetMetadata(r.value) == GetMetadata(h)
    {
      var valueCopy := Get(h);
      var metadataCopy := GetMetadata(h).value;
      r := Add(valueCopy);
      if r.Ok? {
        var _ := SetMetadata(r.value, metadataCopy);
      }
    }

    /** `as_array`: a view over every slot added so far. For a zero-sized value the source
        reads the unmapped store in `start_mut()`; the model gives the empty view there. */
    function AsArray(): (a: HandleArray)
      reads this, contents, metadata, contents.slots, metadata.slots
      requires Valid()
      ensures a.length == if contents.elemSize == 0 then 0 else adds
      ensures forall i :: 0 <= i < a.length ==> Holds(a.At(i))
    {
      HandleArray(contents.count)
    }
  }

  /** The 24-byte arena of three 8-byte integers: three allocations succeed, the fourth panics. */
  method ThreeSlotArena() returns (handles: seq<Outcome<Handle>>)
    ensures handles == [Ok(At(0)), Ok(At(1)), Ok(At(2)), Panic(ARENA_EXHAUSTED)]
  {
    var a := new MMapArena<int>(24, 8);
    var h0 := a.Alloc();
    var h1 := a.Alloc();
    var h2 := a.Alloc();
    var h3 := a.Alloc();
    handles := [h0, h1, h2, h3];
  }
}
