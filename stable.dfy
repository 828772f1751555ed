/** The stable-memory cursors of rust/src/stable.rs. Stable memory is a byte
    array whose size is a whole number of 64 KiB pages; `StableWriter` and
    `StableReader` keep a byte offset and a capacity in pages, and the writer
    grows the memory when a write would pass that capacity. The host calls
    `stable_size`, `stable_grow`, `stable_write` and `stable_read` are the
    methods of `StableMemory`; whether the host refuses to grow is a
    parameter. Offsets are `usize` of the 32-bit WebAssembly target. */
module Stable {
  import opened Bytes

  const PAGE_SIZE: nat := 65536

  /** The most pages the 32-bit stable-memory API lets a canister have (4 GiB). */
  const MAX_PAGES: nat := 65536

  datatype StableMemoryError = OutOfMemory | OutOfBounds

  /** `std::io::ErrorKind`, as far as the adapters use it. */
  datatype IoErrorKind = OutOfMemoryKind

  datatype IoError = IoError(kind: IoErrorKind, cause: StableMemoryError)

  /** `(capacity as usize) << 16` on wasm32: the bytes of `capacity` pages,
      wrapped to 32 bits (a full 4 GiB memory wraps to 0). */
  function CapacityBytes(capacity: u32): (r: nat)
    ensures r < USIZE_LIMIT && r <= capacity * PAGE_SIZE
    ensures capacity < MAX_PAGES ==> r == capacity * PAGE_SIZE
    ensures capacity == MAX_PAGES ==> r == 0
  {
    (capacity * PAGE_SIZE) % USIZE_LIMIT
  }

  /** The pages `write` asks for when a write would end at byte `end`
      (`(end >> 16) as u32 + 1`): always enough for the write, and at most
      one page more than needed. */
  function GrowthPages(end: nat): (r: nat)
    ensures end < r * PAGE_SIZE <= end + PAGE_SIZE
    ensures end < USIZE_LIMIT ==> r <= MAX_PAGES
  {
    end / PAGE_SIZE + 1
  }

  /** How many bytes `read` takes from `offset` into a buffer of `len` bytes
      when the capacity is `cap` bytes: all of them when they fit, as many
      as are left when the offset is inside the capacity, and `OutOfBounds`
      otherwise. */
  function ReadLength(offset: nat, len: nat, cap: nat): (r: Result<nat, StableMemoryError>)
    ensures r.Ok? <==> offset + len <= cap || offset < cap
    ensures r.Err? ==> r.error == OutOfBounds
    ensures r.Ok? ==> r.value <= len && offset + r.value <= cap
    ensures r.Ok? ==> r.value == len || offset + r.value == cap
  {
    if len + offset > cap then
      if offset < cap then Ok(cap - offset) else Err(OutOfBounds)
    else Ok(len)
  }

  /** The memory after `pages` zero-filled pages are added at its end. */
  function Grown(data: seq<u8>, pages: nat): seq<u8> {
    data + Zeros(pages * PAGE_SIZE)
  }

  /** The memory after `buf` is written at `offset`. */
  function Spliced(data: seq<u8>, offset: nat, buf: seq<u8>): seq<u8>
    requires offset + |buf| <= |data|
  {
    data[..offset] + buf + data[offset + |buf|..]
  }

  /** A write places the buffer at [offset, offset + |buf|) and leaves every
      other byte, and the size, as it was. */
  lemma {:induction false} SplicedLayout(data: seq<u8>, offset: nat, buf: seq<u8>)
    requires offset + |buf| <= |data|
    ensures |Spliced(data, offset, buf)| == |data|
    ensures Spliced(data, offset, buf)[offset..offset + |buf|] == buf
    ensures forall i :: 0 <= i < |data| && !(offset <= i < offset + |buf|) ==>
      Spliced(data, offset, buf)[i] == data[i]
  {
    var r := Spliced(data, offset, buf);
    assert r == (data[..offset] + buf) + data[offset + |buf|..];
    forall i | 0 <= i < |data| && !(offset <= i < offset + |buf|)
      ensures r[i] == data[i]
    {
      if i < offset {
        assert r[i] == data[..offset][i];
      } else {
        assert r[i] == data[offset + |buf|..][i - offset - |buf|];
      }
    }
  }

  /** Growing keeps the old bytes and adds zero bytes of whole pages. */
  lemma {:induction false} GrownLayout(data: seq<u8>, pages: nat)
    ensures |Grown(data, pages)| == |data| + pages * PAGE_SIZE
    ensures Grown(data, pages)[..|data|] == data
    ensures forall i :: |data| <= i < |Grown(data, pages)| ==> Grown(data, pages)[i] == 0
  {
    var g := Grown(data, pages);
    forall i | |data| <= i < |g|
      ensures g[i] == 0
    {
      assert g[i] == Zeros(pages * PAGE_SIZE)[i - |data|];
    }
    assert g[..|data|] == data;
  }

  /** The canister's stable memory. */
  class StableMemory {
    var data: seq<u8>

    ghost predicate Valid()
      reads this
    {
      |data| % PAGE_SIZE == 0 && |data| <= MAX_PAGES * PAGE_SIZE
    }

    /** `stable_size`: the size in pages. */
    function Size(): (r: u32)
      reads this
      requires Valid()
      ensures r <= MAX_PAGES && r * PAGE_SIZE == |data|
    {
      |data| / PAGE_SIZE
    }

    /** A canister starts with no stable memory. */
    constructor ()
      ensures Valid() && data == []
    {
      data := [];
    }

    /** `stable_grow`: adds zero-filled pages and returns the old size, or
        fails with `OutOfMemory` when the host refuses or the memory would
        pass 4 GiB. */
    method Grow(added: u32, refused: bool) returns (r: Result<u32, StableMemoryError>)
      requires Valid()
      modifies this
      ensures Valid()
      ensures refused || old(Size()) + added > MAX_PAGES ==>
        r == Err(OutOfMemory) && data == old(data)
      ensures !(refused || old(Size()) + added > MAX_PAGES) ==>
        r == Ok(old(Size())) && data == Grown(old(data), added)
    {
      var size := Size();
      if refused || size + added > MAX_PAGES {
        return Err(OutOfMemory);
      }
      data := Grown(data, added);
      r := Ok(size);
    }

    /** `stable_write`: the host traps on a write past the end, so a write
        that returns lies inside the memory. */
    method Write(offset: nat, buf: seq<u8>)
      requires Valid() && offset + |buf| <= |data|
      modifies this
      ensures Valid()
      ensures data == Spliced(old(data), offset, buf)
    {
      data := Spliced(data, offset, buf);
    }

    /** `stable_read` into the first `len` bytes of `buf`: the host traps on
        a read past the end. */
    method Read(offset: nat, buf: array<u8>, len: nat)
      requires offset + len <= |data| && len <= buf.Length
      modifies buf
      ensures buf[..len] == data[offset..offset + len]
      ensures buf[len..] == old(buf[len..])
    {
      forall i | 0 <= i < len {
        buf[i] := data[offset + i];
      }
    }
  }

  /** A writer that appends at `offset`, growing the memory as it goes. */
  class StableWriter {
    var offset: nat
    var capacity: u32

    /** The offset is a `usize` and the capacity is never more than the
        memory has. */
    ghost predicate Valid(mem: StableMemory)
      reads this, mem
    {
      mem.Valid() && offset < USIZE_LIMIT && capacity <= mem.Size()
    }

    /** `StableWriter::default`: at offset 0 with the memory's current size. */
    constructor (mem: StableMemory)
      requires mem.Valid()
      ensures Valid(mem) && offset == 0 && capacity == mem.Size()
    {
      offset := 0;
      capacity := mem.Size();
    }

    /** `StableWriter::grow`: on success the capacity is the new size of the
        memory; on failure nothing changes. */
    method Grow(mem: StableMemory, added: u32, refused: bool) returns (r: Result<(), StableMemoryError>)
      requires Valid(mem)
      modifies this, mem
      ensures Valid(mem) && offset == old(offset)
      ensures refused || old(mem.Size()) + added > MAX_PAGES ==>
        r == Err(OutOfMemory) && capacity == old(capacity) && mem.data == old(mem.data)
      ensures !(refused || old(mem.Size()) + added > MAX_PAGES) ==>
        r.Ok? && capacity == old(mem.Size()) + added == mem.Size() &&
        mem.data == Grown(old(mem.data), added)
    {
      var grown := mem.Grow(added, refused);
      if grown.Err? {
        return Err(grown.error);
      }
      capacity := grown.value + added;
      r := Ok(());
    }

    /** `StableWriter::write`. When the end of the write passes the
        capacity it first grows by `GrowthPages(end)` pages, and fails with
        the memory unchanged if that fails; then it writes the buffer at
        the offset, advances the offset by the buffer's length and returns
        that length. */
    method Write(mem: StableMemory, buf: seq<u8>, refused: bool) returns (r: Result<nat, StableMemoryError>)
      requires Valid(mem) && offset + |buf| < USIZE_LIMIT
      modifies this, mem
      ensures Valid(mem)
      ensures old(offset) + |buf| <= CapacityBytes(old(capacity)) ==>
        r == Ok(|buf|) && capacity == old(capacity) &&
        old(offset) + |buf| <= |old(mem.data)| &&
        mem.data == Spliced(old(mem.data), old(offset), buf)
      ensures
        (old(offset) + |buf| > CapacityBytes(old(capacity)) &&
         (refused || old(mem.Size()) + GrowthPages(old(offset) + |buf|) > MAX_PAGES)) ==>
        r == Err(OutOfMemory) && offset == old(offset) && capacity == old(capacity) &&
        mem.data == old(mem.data)
      ensures
        (old(offset) + |buf| > CapacityBytes(old(capacity)) &&
         !(refused || old(mem.Size()) + GrowthPages(old(offset) + |buf|) > MAX_PAGES)) ==>
        r == Ok(|buf|) &&
        capacity == old(mem.Size()) + GrowthPages(old(offset) + |buf|) &&
        old(offset) + |buf| < capacity * PAGE_SIZE &&
        mem.data == Spliced(Grown(old(mem.data), GrowthPages(old(offset) + |buf|)), old(offset), buf)
      ensures r.Ok? ==> offset == old(offset) + |buf|
    {
      var end := offset + |buf|;
      if end > CapacityBytes(capacity) {
        var grown := Grow(mem, GrowthPages(end), refused);
        if grown.Err? {
          return Err(grown.error);
        }
      }
      mem.Write(offset, buf);
      offset := end;
      r := Ok(|buf|);
    }

    /** `io::Write for StableWriter`: the same write, with the error wrapped
        as an `OutOfMemory` I/O error. */
    method IoWrite(mem: StableMemory, buf: seq<u8>, refused: bool) returns (r: Result<nat, IoError>)
      requires Valid(mem) && offset + |buf| < USIZE_LIMIT
      modifies this, mem
      ensures Valid(mem)
      ensures old(offset) + |buf| <= CapacityBytes(old(capacity)) ==>
        r == Ok(|buf|) && capacity == old(capacity) &&
        old(offset) + |buf| <= |old(mem.data)| &&
        mem.data == Spliced(old(mem.data), old(offset), buf)
      ensures
        (old(offset) + |buf| > CapacityBytes(old(capacity)) &&
         (refused || old(mem.Size()) + GrowthPages(old(offset) + |buf|) > MAX_PAGES)) ==>
        r == Err(IoError(OutOfMemoryKind, OutOfMemory)) &&
        offset == old(offset) && capacity == old(capacity) && mem.data == old(mem.data)
      ensures
        (old(offset) + |buf| > CapacityBytes(old(capacity)) &&
         !(refused || old(mem.Size()) + GrowthPages(old(offset) + |buf|) > MAX_PAGES)) ==>
        r == Ok(|buf|) &&
        capacity == old(mem.Size()) + GrowthPages(old(offset) + |buf|) &&
        mem.data == Spliced(Grown(old(mem.data), GrowthPages(old(offset) + |buf|)), old(offset), buf)
      ensures r.Ok? ==> offset == old(offset) + |buf|
    {
      var written := Write(mem, buf, refused);
      if written.Err? {
        return Err(IoError(OutOfMemoryKind, written.error));
      }
      r := Ok(written.value);
    }
  }

  /** A reader that reads consecutively from `offset`. */
  class StableReader {
    var offset: nat
    var capacity: u32

    ghost predicate Valid(mem: StableMemory)
      reads this, mem
    {
      mem.Valid() && offset < USIZE_LIMIT && capacity <= mem.Size()
    }

    /** `StableReader::default`: at offset 0 with the memory's current size. */
    constructor (mem: StableMemory)
      requires mem.Valid()
      ensures Valid(mem) && offset == 0 && capacity == mem.Size()
    {
      offset := 0;
      capacity := mem.Size();
    }

    /** `StableReader::read`: fills as much of `buf` as the capacity allows
        (`ReadLength`), advances the offset by that count and returns it; the
        rest of `buf` is untouched. Past the capacity it fails with
        `OutOfBounds` and changes nothing. */
    method Read(mem: StableMemory, buf: array<u8>) returns (r: Result<nat, StableMemoryError>)
      requires Valid(mem) && offset + buf.Length < USIZE_LIMIT
      modifies this, buf
      ensures Valid(mem) && capacity == old(capacity)
      ensures r == ReadLength(old(offset), buf.Length, CapacityBytes(capacity))
      ensures r.Ok? ==>
        offset == old(offset) + r.value &&
        buf[..r.value] == mem.data[old(offset)..offset] &&
        buf[r.value..] == old(buf[r.value..])
      ensures r.Err? ==> offset == old(offset) && buf[..] == old(buf[..])
    {
      var cap := CapacityBytes(capacity);
      var len := ReadLength(offset, buf.Length, cap);
      if len.Err? {
        return len;
      }
      mem.Read(offset, buf, len.value);
      offset := offset + len.value;
      r := len;
    }

    /** `io::Read for StableReader`: a failed read counts as the end of the
        data, `Ok(0)`. */
    method IoRead(mem: StableMemory, buf: array<u8>) returns (r: Result<nat, IoError>)
      requires Valid(mem) && offset + buf.Length < USIZE_LIMIT
      modifies this, buf
      ensures Valid(mem) && capacity == old(capacity)
      ensures r.Ok?
      ensures ReadLength(old(offset), buf.Length, CapacityBytes(capacity)).Err? ==>
        r.value == 0 && offset == old(offset) && buf[..] == old(buf[..])
      ensures ReadLength(old(offset), buf.Length, CapacityBytes(capacity)).Ok? ==>
        r.value == ReadLength(old(offset), buf.Length, CapacityBytes(capacity)).value &&
        offset == old(offset) + r.value &&
        buf[..r.value] == mem.data[old(offset)..offset] &&
        buf[r.value..] == old(buf[r.value..])
    {
      var read := Read(mem, buf);
      if read.Err? {
        return Ok(0);
      }
      r := Ok(read.value);
    }
  }
}
