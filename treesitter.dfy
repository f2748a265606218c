/**
 * The transfer layer of treesitter.go: a session (`Treesitter`) owning the
 * guest's linear memory, the guest allocator it calls through `malloc` and
 * `free`, and the two helpers that move strings across the boundary,
 * `allocateString` and `readString`.
 */
module Runtime {
  import opened Values
  import opened Wasm

  /** The error text `fmt.Errorf("writing string: %w", err)` produces, since `err` is nil at that point. */
  const WritingStringError := "writing string: %!w(<nil>)"
  const ReadingStringError := "error reading string"
  /** What a call into the guest reports when the guest traps. */
  const GuestTrap := "wasm error: out of bounds memory access"
  const GuestOutOfMemory := "wasm error: malloc failed"

  /** The `free func()` that `allocateString` returns: it releases exactly `ptr`. */
  datatype Release = Release(ptr: u64)

  /**
   * C `strlen` over the memory contents: the number of non-zero bytes from
   * `p` up to the first zero byte, or None when the scan runs off the end of
   * memory (where the guest traps).
   */
  function CStrlen(m: seq<u8>, p: nat): (r: Option<nat>)
    ensures r.Some? ==> p + r.value < |m| && m[p + r.value] == 0
    ensures r.Some? ==> forall i | p <= i < p + r.value :: m[i] != 0
    ensures r.None? ==> forall i | p <= i < |m| :: m[i] != 0
    decreases |m| - p
  {
    if p >= |m| then None
    else if m[p] == 0 then Some(0)
    else match CStrlen(m, p + 1)
      case None => None
      case Some(n) => Some(n + 1)
  }

  /** The guest's `strlen` export as a function value: an i32 result, so the length comes back modulo 2^32. */
  function GuestStrlen(m: seq<u8>, ptr: u64): Result<u64>
  {
    match CStrlen(m, Wrap32(ptr))
    case None => Err(GuestTrap)
    case Some(n) => Ok(Wrap32(n))
  }

  /**
   * What `readString(ptr)` returns for memory contents `m` and a guest
   * `strlen`: the length comes from the guest, never from a host-side scan,
   * and both the address and the length are cut to 32 bits before the read.
   */
  function ReadCString(m: seq<u8>, strlen: (seq<u8>, u64) -> Result<u64>, ptr: u64): (r: (seq<u8>, Option<string>))
    ensures r.1.Some? ==> r.0 == []
    ensures strlen(m, ptr).Err? ==> r.1 == Some("getting string length: " + strlen(m, ptr).message)
    ensures strlen(m, ptr).Ok? ==>
              var n := Wrap32(strlen(m, ptr).value);
              if Fits(Wrap32(ptr), n, |m|) then r == (m[Wrap32(ptr)..Wrap32(ptr) + n], None)
              else r.1 == Some(ReadingStringError)
  {
    match strlen(m, ptr)
    case Err(e) => ([], Some("getting string length: " + e))
    case Ok(n) =>
      match ReadBytes(m, Wrap32(ptr), Wrap32(n))
      case None => ([], Some(ReadingStringError))
      case Some(bytes) => (bytes, None)
  }

  /**
   * With the guest's C `strlen`, a string written at `p` reads back intact
   * when the byte after it is zero and it holds no zero byte itself.
   */
  lemma {:induction false} ReadBackTerminated(m: seq<u8>, p: u32, str: seq<u8>)
    requires |m| <= MaxMemorySize
    requires Fits(p, |str| + 1, |m|)
    requires forall i | 0 <= i < |str| :: str[i] != 0
    requires m[p + |str|] == 0
    ensures WriteBytes(m, p, str).Some?
    ensures ReadCString(WriteBytes(m, p, str).value, GuestStrlen, p) == (str, None)
  {
    var w := WriteBytes(m, p, str).value;
    WriteBytesEffect(m, p, str);
    CStrlenAt(w, p, |str|);
  }

  /**
   * `allocateString` writes no terminator, so reading the string back is not
   * a round trip: when the byte after it is not zero, `readString` either
   * fails or returns more than was written.
   */
  lemma {:induction false} ReadBackUnterminated(m: seq<u8>, p: u32, str: seq<u8>)
    requires |m| <= MaxMemorySize
    requires Fits(p, |str| + 1, |m|)
    requires forall i | 0 <= i < |str| :: str[i] != 0
    requires m[p + |str|] != 0
    ensures WriteBytes(m, p, str).Some?
    ensures var r := ReadCString(WriteBytes(m, p, str).value, GuestStrlen, p);
            r.1.None? ==> |r.0| > |str| && r.0[..|str|] == str
  {
    var w := WriteBytes(m, p, str).value;
    WriteBytesEffect(m, p, str);
    match CStrlen(w, p)
    case None =>
    case Some(n) =>
      assert n > |str|;
      assert w[p..p + n][..|str|] == w[p..p + |str|];
  }

  /**
   * Conversely, a string with a zero byte at `k` (and none before it) does
   * not read back intact: `readString` returns only the bytes before that
   * zero, with no error.
   */
  lemma {:induction false} ReadBackEmbeddedZero(m: seq<u8>, p: u32, str: seq<u8>, k: nat)
    requires |m| <= MaxMemorySize
    requires Fits(p, |str|, |m|)
    requires k < |str| && str[k] == 0
    requires forall i | 0 <= i < k :: str[i] != 0
    ensures WriteBytes(m, p, str).Some?
    ensures ReadCString(WriteBytes(m, p, str).value, GuestStrlen, p) == (str[..k], None)
  {
    var w := WriteBytes(m, p, str).value;
    WriteBytesEffect(m, p, str);
    assert w[p + k] == str[k];
    assert forall i | p <= i < p + k :: w[i] == str[i - p];
    CStrlenAt(w, p, k);
    assert w[p..p + k] == str[..k];
  }

  /** CStrlen finds the first zero at `p + n` when the `n` bytes before it are non-zero. */
  lemma {:induction false} CStrlenAt(m: seq<u8>, p: nat, n: nat)
    requires p + n < |m| && m[p + n] == 0
    requires forall i | p <= i < p + n :: m[i] != 0
    ensures CStrlen(m, p) == Some(n)
    decreases n
  {
    if n > 0 {
      CStrlenAt(m, p + 1, n - 1);
    }
  }

  /**
   * The session: the guest's linear memory, its `strlen` export, and a
   * stand-in for the guest's `malloc`/`free` that records which blocks are
   * live. Memory growth is not modelled.
   */
  class Treesitter {
    const memory: array<u8>
    const strlen: (seq<u8>, u64) -> Result<u64>
    /** Live blocks handed out by Malloc and not yet freed, with their sizes. */
    var live: map<u64, u64>
    /** Next address the stand-in allocator hands out (it never hands out 0). */
    var top: nat

    ghost predicate Valid()
      reads this
    {
      && memory.Length <= MaxMemorySize && 0 < top
      && forall p | p in live :: p < top
    }

    constructor (size: nat, strlen: (seq<u8>, u64) -> Result<u64>)
      requires size <= MaxMemorySize
      ensures Valid() && fresh(memory)
      ensures memory.Length == size && this.strlen == strlen && live == map[]
    {
      memory := new u8[size](_ => 0);
      this.strlen := strlen;
      live := map[];
      top := 8;
    }

    /**
     * The guest's `malloc`, called with a 64-bit argument. A call either fails
     * or returns a 32-bit address now recorded as live. Nothing here promises
     * that the block lies inside memory: the Go code never checks.
     */
    method Malloc(size: u64) returns (ptr: u64, err: Option<string>)
      requires Valid()
      modifies this`live, this`top
      ensures Valid()
      ensures err.None? ==> 0 < ptr < 0x1_0000_0000 && ptr == old(top) && ptr !in old(live) && live == old(live)[ptr := size]
      ensures err.Some? ==> ptr == 0 && live == old(live)
    {
      if top + size >= memory.Length {
        return 0, Some(GuestOutOfMemory);
      }
      ptr := top;
      top := top + if size == 0 then 1 else size;
      live := live[ptr := size];
      err := None;
    }

    /** The guest's `free`. */
    method Free(ptr: u64)
      requires Valid()
      modifies this`live
      ensures Valid() && live == old(live) - {ptr}
    {
      live := live - {ptr};
    }

    /**
     * `allocateString`: mallocs `len(str)` bytes and copies the bytes of `str`
     * there, without a terminator. On success it returns the address, the
     * byte length and a free function for exactly that address; on failure
     * `0, 0, nil` and an error. A block whose write failed is not freed.
     */
    method AllocateString(str: seq<u8>) returns (ptr: u64, size: u64, free: Option<Release>, err: Option<string>)
      requires Valid()
      requires |str| < 0x1_0000_0000_0000_0000
      modifies this`live, this`top, memory
      ensures Valid()
      ensures err.None? ==> size == |str| && free == Some(Release(ptr))
      ensures err.None? ==> ptr !in old(live) && live == old(live)[ptr := size]
      ensures err.None? ==> Some(memory[..]) == WriteBytes(old(memory[..]), Wrap32(ptr), str)
      ensures err.Some? ==> ptr == 0 && size == 0 && free == None && memory[..] == old(memory[..])
      ensures err.Some? ==> err.value == WritingStringError || "allocating string: " <= err.value
      ensures err.Some? && "allocating string: " <= err.value ==> live == old(live)
      ensures err == Some(WritingStringError) ==> old(top) < 0x1_0000_0000 && live == old(live)[old(top) as u64 := |str| as u64]
      ensures err == Some(WritingStringError) ==> !Fits(Wrap32(old(top)), |str|, memory.Length)
    {
      var strSize: u64 := |str|;
      var strPtr, mallocErr := Malloc(strSize);
      if mallocErr.Some? {
        err := Some("allocating string: " + mallocErr.value);
        assert err.value[0] != WritingStringError[0];
        return 0, 0, None, err;
      }
      var ok := Write(memory, Wrap32(strPtr), str);
      if !ok {
        assert WritingStringError[0] != "allocating string: "[0];
        return 0, 0, None, Some(WritingStringError);
      }
      return strPtr, strSize, Some(Release(strPtr)), None;
    }

    /** Calls a free function returned by AllocateString: `t.free.Call(ctx, strPtr[0])`, whose error is ignored. */
    method Invoke(release: Release)
      requires Valid()
      modifies this`live
      ensures Valid() && live == old(live) - {release.ptr}
    {
      Free(release.ptr);
    }

    /** `readString`: asks the guest for the length at `ptr`, then reads exactly that many bytes. */
    method ReadString(ptr: u64) returns (s: seq<u8>, err: Option<string>)
      ensures (s, err) == ReadCString(memory[..], strlen, ptr)
    {
      var strSize := strlen(memory[..], ptr);
      if strSize.Err? {
        return [], Some("getting string length: " + strSize.message);
      }
      var bytes, ok := Read(memory, Wrap32(ptr), Wrap32(strSize.value));
      if !ok {
        return [], Some(ReadingStringError);
      }
      return bytes, None;
    }
  }
}
