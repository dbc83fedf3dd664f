/** The shared-buffer discipline: the host writes a request into the guest's
    memory at the parameter buffer offset and reads a response back from the
    same offset. Both go through Rust slice indexing, which panics unless the
    whole window lies inside the memory; `None` stands for that panic. */
module Buffer {
  import opened Rust
  import opened Wasm

  /** The window `[ptr, ptr + len)` lies inside a memory of `memLen` bytes. */
  predicate Fits(ptr: int, len: int, memLen: nat) {
    0 <= ptr && 0 <= len && ptr + len <= memLen
  }

  /** `mem` holds `bytes` at `ptr`. */
  predicate Holds(mem: seq<byte>, ptr: int, bytes: seq<byte>) {
    && Fits(ptr, |bytes|, |mem|)
    && forall i :: 0 <= i < |bytes| ==> mem[ptr + i] == bytes[i]
  }

  /** `staged` is `mem` with `request` laid over the window at `ptr`, and
      every byte outside that window as it was. */
  predicate Staged(mem: seq<byte>, ptr: int, request: seq<byte>, staged: seq<byte>) {
    && |staged| == |mem|
    && Holds(staged, ptr, request)
    && forall i :: 0 <= i < |mem| && !(ptr <= i < ptr + |request|) ==> staged[i] == mem[i]
  }

  /** Staging determines the memory the guest sees: there is one way to lay
      a request over a memory. */
  lemma {:induction false} StagedUnique(mem: seq<byte>, ptr: int, request: seq<byte>, a: seq<byte>, b: seq<byte>)
    requires Staged(mem, ptr, request, a)
    requires Staged(mem, ptr, request, b)
    ensures a == b
  {
    forall i | 0 <= i < |a|
      ensures a[i] == b[i]
    {
      if ptr <= i < ptr + |request| {
        assert a[ptr + (i - ptr)] == request[i - ptr];
        assert b[ptr + (i - ptr)] == request[i - ptr];
      }
    }
  }

  /** The bounds of `buffer[ptr as usize .. ptr as usize + len]`, or `None`
      where Rust panics: the end overflows `usize`, or the range is reversed
      or runs past the end of the memory. A negative `ptr` sign-extends to a
      value near 2^64, so it always panics. */
  function Window(ptr: i32, len: nat, memLen: nat): (w: Option<(nat, nat)>)
    requires memLen <= MAX_MEMORY
    ensures w.Some? <==> Fits(ptr, len, memLen)
    ensures w.Some? ==> w.value.0 == ptr && w.value.1 == ptr + len
  {
    var lo := I32AsUsize(ptr);
    match CheckedAdd(lo, len)
    case None => None
    case Some(hi) => if lo <= hi <= memLen then Some((lo, hi)) else None
  }

  /** In a release build the end of the window wraps instead of panicking on
      overflow; a wrapped end lies below the start, so the slice panics in
      exactly the same cases. */
  lemma WrappingWindowAgrees(ptr: i32, len: usize, memLen: nat)
    requires memLen <= MAX_MEMORY
    ensures var lo := I32AsUsize(ptr);
            (lo <= WrappingAdd(lo, len) <= memLen) <==> Window(ptr, len, memLen).Some?
  {
  }

  /** `slice_to_buffer`: copy `source` into the window at `ptr`. */
  function SliceToBuffer(mem: Memory, ptr: i32, source: seq<byte>): (r: Option<Memory>)
    ensures r.Some? <==> Fits(ptr, |source|, |mem|)
    ensures r.Some? ==> Staged(mem, ptr, source, r.value)
  {
    match Window(ptr, |source|, |mem|)
    case None => None
    case Some((lo, hi)) => Some(mem[..lo] + source + mem[hi..])
  }

  /** `copy_from_slice` into `dst[lo..lo + |src|]`, byte by byte. */
  method CopyFromSlice(dst: Memory, lo: nat, src: seq<byte>) returns (m: Memory)
    requires lo + |src| <= |dst|
    ensures Staged(dst, lo, src, m)
    ensures lo <= I32_MAX ==> SliceToBuffer(dst, lo, src) == Some(m)
  {
    m := dst;
    var i := 0;
    while i < |src|
      invariant 0 <= i <= |src|
      invariant |m| == |dst|
      invariant forall k :: 0 <= k < i ==> m[lo + k] == src[k]
      invariant forall k :: 0 <= k < |dst| && !(lo <= k < lo + i) ==> m[k] == dst[k]
    {
      m := m[lo + i := src[i]];
      i := i + 1;
    }
    if lo <= I32_MAX {
      StagedUnique(dst, lo, src, m, SliceToBuffer(dst, lo, src).value);
    }
  }

  /** `read_returned_value`: the `len` bytes at `ptr`. A negative `len`
      sign-extends to a huge `usize` and panics like any window that does not
      fit. */
  function ReadReturnedValue(mem: Memory, ptr: i32, len: i32): (r: Option<seq<byte>>)
    ensures r.Some? <==> Fits(ptr, len, |mem|)
    ensures r.Some? ==> |r.value| == len && Holds(mem, ptr, r.value)
  {
    match Window(ptr, I32AsUsize(len), |mem|)
    case None => None
    case Some((lo, hi)) => Some(mem[lo..hi])
  }

  /** Reading back as many bytes as were just written returns what was
      written. */
  lemma ReadAfterWrite(mem: Memory, ptr: i32, source: seq<byte>)
    requires Fits(ptr, |source|, |mem|)
    requires |source| <= I32_MAX
    ensures SliceToBuffer(mem, ptr, source).Some?
    ensures ReadReturnedValue(SliceToBuffer(mem, ptr, source).value, ptr, |source|) == Some(source)
  {
  }

  /** A write leaves every window that does not overlap it readable with the
      same contents as before. */
  lemma {:induction false} ReadOutsideWrite(mem: Memory, ptr: i32, source: seq<byte>, at: i32, len: i32)
    requires Fits(ptr, |source|, |mem|)
    requires at + len <= ptr || ptr + |source| <= at
    ensures SliceToBuffer(mem, ptr, source).Some?
    ensures ReadReturnedValue(SliceToBuffer(mem, ptr, source).value, at, len) == ReadReturnedValue(mem, at, len)
  {
    var staged := SliceToBuffer(mem, ptr, source).value;
    if Fits(at, len, |mem|) {
      var before := ReadReturnedValue(mem, at, len).value;
      var after := ReadReturnedValue(staged, at, len).value;
      forall i | 0 <= i < len
        ensures after[i] == before[i]
      {
        assert after[i] == staged[at + i];
        assert before[i] == mem[at + i];
      }
      assert after == before;
    }
  }
}
