/**
  The bump allocator of a WASM strategy and the writes into its linear memory. Offsets and
  sizes are 32-bit unsigned numbers, and wrap.
*/
module Allocator {

  type Byte = bv8

  const TOP: nat := 0x1_0000_0000
  const BASE: nat := 65536
  const PAGE: nat := 65536
  const MAX_SIZE: nat := 1048576

  /** A sum of two 32-bit numbers. */
  function Wrapped(n: nat): nat { if n >= TOP then n - TOP else n }

  function Round8(n: nat): nat { if n % 8 == 0 then n else n + 8 - n % 8 }

  /** The offset after a block of `size` bytes at `offset`, as the allocator computes it. */
  function Advance(offset: nat, size: nat): nat {
    var n := Wrapped(offset + size);
    if n % 8 != 0 then Wrapped(n + 8 - n % 8) else n
  }

  lemma AdvanceRounds(offset: nat, size: nat)
    requires offset < TOP && offset % 8 == 0 && size <= MAX_SIZE
    ensures Advance(offset, size) == Wrapped(offset + Round8(size)) < TOP
    ensures Advance(offset, size) % 8 == 0 && size <= Round8(size) <= MAX_SIZE
  {
  }

  /* ---------- Where the blocks lie ---------- */

  /** The allocator's offset after blocks of these sizes. */
  function After(sizes: seq<nat>): nat {
    if sizes == [] then BASE else Advance(After(sizes[..|sizes| - 1]), sizes[|sizes| - 1])
  }

  function Rounded(sizes: seq<nat>): nat {
    if sizes == [] then 0 else Rounded(sizes[..|sizes| - 1]) + Round8(sizes[|sizes| - 1])
  }

  predicate Allowed(sizes: seq<nat>) { forall i :: 0 <= i < |sizes| ==> sizes[i] <= MAX_SIZE }

  /** The block of the k-th size starts where the allocator stands after the earlier ones. */
  function Start(sizes: seq<nat>, k: nat): nat
    requires k <= |sizes|
  {
    After(sizes[..k])
  }

  lemma {:induction false} AfterAligned(sizes: seq<nat>)
    requires Allowed(sizes)
    ensures After(sizes) < TOP && After(sizes) % 8 == 0
  {
    if sizes != [] {
      AfterAligned(sizes[..|sizes| - 1]);
      AdvanceRounds(After(sizes[..|sizes| - 1]), sizes[|sizes| - 1]);
    }
  }

  lemma {:induction false} RoundedPrefix(sizes: seq<nat>, k: nat)
    requires k <= |sizes|
    ensures Rounded(sizes[..k]) <= Rounded(sizes)
  {
    if k < |sizes| {
      assert sizes[..|sizes| - 1][..k] == sizes[..k];
      RoundedPrefix(sizes[..|sizes| - 1], k);
    } else {
      assert sizes[..k] == sizes;
    }
  }

  lemma {:induction false} AfterIsSum(sizes: seq<nat>)
    requires Allowed(sizes) && BASE + Rounded(sizes) < TOP
    ensures After(sizes) == BASE + Rounded(sizes)
  {
    if sizes != [] {
      var rest := sizes[..|sizes| - 1];
      AfterIsSum(rest);
      AfterAligned(rest);
      AdvanceRounds(After(rest), sizes[|sizes| - 1]);
    }
  }

  /**
    The offsets are the plain sums of the rounded sizes, for every block and the next one,
    exactly as long as that sum stays below 2 to the 32.
   */
  lemma {:induction false} NoWrapExactlyWhen(sizes: seq<nat>)
    requires Allowed(sizes)
    ensures (forall k: nat :: k <= |sizes| ==> Start(sizes, k) == BASE + Rounded(sizes[..k])) <==>
            BASE + Rounded(sizes) < TOP
  {
    if BASE + Rounded(sizes) < TOP {
      forall k: nat | k <= |sizes| ensures Start(sizes, k) == BASE + Rounded(sizes[..k]) {
        RoundedPrefix(sizes, k);
        AfterIsSum(sizes[..k]);
      }
    } else {
      assert sizes[..|sizes|] == sizes;
      AfterAligned(sizes);
      assert Start(sizes, |sizes|) != BASE + Rounded(sizes[..|sizes|]);
    }
  }

  /** Any number of blocks up to 4095 fits; and 4096 blocks of the greatest size do not. */
  lemma {:induction false} RoundedBound(sizes: seq<nat>)
    requires Allowed(sizes)
    ensures Rounded(sizes) <= |sizes| * MAX_SIZE
  {
    if sizes != [] { RoundedBound(sizes[..|sizes| - 1]); }
  }

  lemma SafeCount(sizes: seq<nat>)
    requires Allowed(sizes) && |sizes| <= 4095
    ensures BASE + Rounded(sizes) < TOP
  {
    RoundedBound(sizes);
    assert |sizes| * MAX_SIZE <= 4095 * MAX_SIZE;
  }

  /** The first block to reach the end of the address space throws the offset back to the bottom. */
  lemma WrapRestartsLow(sizes: seq<nat>, size: nat)
    requires Allowed(sizes) && size <= MAX_SIZE
    requires BASE + Rounded(sizes) < TOP <= BASE + Rounded(sizes + [size])
    ensures After(sizes + [size]) == BASE + Rounded(sizes + [size]) - TOP < MAX_SIZE
  {
    assert (sizes + [size])[..|sizes|] == sizes;
    AfterIsSum(sizes);
    AfterAligned(sizes);
    AdvanceRounds(After(sizes), size);
  }

  lemma StartMonotone(sizes: seq<nat>, i: nat, j: nat)
    requires Allowed(sizes) && BASE + Rounded(sizes) < TOP && i <= j <= |sizes|
    ensures Start(sizes, i) <= Start(sizes, j)
  {
    RoundedPrefix(sizes, j);
    var front := sizes[..j];
    assert front[..i] == sizes[..i];
    RoundedPrefix(front, i);
    AfterIsSum(front);
    AfterIsSum(sizes[..i]);
  }

  /** Below the bound, blocks are aligned, above the reserved area, in order, and do not overlap. */
  lemma BlocksDisjoint(sizes: seq<nat>, i: nat, j: nat)
    requires Allowed(sizes) && BASE + Rounded(sizes) < TOP && i < j < |sizes|
    ensures BASE <= Start(sizes, i) && Start(sizes, i) % 8 == 0
    ensures Start(sizes, i) + sizes[i] <= Start(sizes, j) && Start(sizes, j) + sizes[j] <= After(sizes) < TOP
  {
    StartNext(sizes, i);
    StartNext(sizes, j);
    StartMonotone(sizes, i + 1, j);
    StartMonotone(sizes, j + 1, |sizes|);
    assert sizes[..|sizes|] == sizes;
    AfterIsSum(sizes);
  }

  lemma {:induction false} StartNext(sizes: seq<nat>, k: nat)
    requires Allowed(sizes) && BASE + Rounded(sizes) < TOP && k < |sizes|
    ensures BASE <= Start(sizes, k) && Start(sizes, k) % 8 == 0
    ensures Start(sizes, k) + sizes[k] <= Start(sizes, k + 1) == Start(sizes, k) + Round8(sizes[k]) < TOP
  {
    assert sizes[..k + 1][..k] == sizes[..k];
    RoundedPrefix(sizes, k);
    RoundedPrefix(sizes, k + 1);
    AfterIsSum(sizes[..k]);
    AfterIsSum(sizes[..k + 1]);
    AfterAligned(sizes[..k]);
    AdvanceRounds(After(sizes[..k]), sizes[k]);
  }

  /* ---------- Writing into linear memory ---------- */

  datatype Machine = Machine(next: nat, memory: seq<Byte>)

  datatype Outcome = Written(offset: nat) | TooLarge | GrowFailed | WriteFailed

  predicate Sound(m: Machine) {
    m.next < TOP && m.next % 8 == 0 && |m.memory| <= TOP && |m.memory| % PAGE == 0
  }

  function Zeros(n: nat): (s: seq<Byte>)
    ensures |s| == n
  {
    seq(n, i => 0)
  }

  function Overwritten(memory: seq<Byte>, offset: nat, data: seq<Byte>): (r: seq<Byte>)
    requires offset + |data| <= |memory|
    ensures |r| == |memory|
  {
    memory[..offset] + data + memory[offset + |data|..]
  }

  function PagesToGrow(required: nat, size: nat): nat
    requires size < required
  {
    Wrapped(required - size + 65535) / PAGE
  }

  /** The memory after the host was asked for room; None if it refused. */
  function Grown(memory: seq<Byte>, required: nat, grants: bool): (bool, seq<Byte>) {
    var size := Wrapped(|memory|);
    if required <= size then (true, memory)
    else
      var pages := PagesToGrow(required, size);
      if grants && |memory| + pages * PAGE <= TOP then (true, memory + Zeros(pages * PAGE)) else (false, memory)
  }

  /** The conversion of a length to 32 bits. */
  function Truncated(n: nat): nat { n % TOP }

  function WriteStep(m: Machine, data: seq<Byte>, grants: bool): (Machine, Outcome) {
    var size := Truncated(|data|);
    if size > MAX_SIZE then (m, TooLarge)
    else
      var next := Advance(m.next, size);
      var (ok, memory) := Grown(m.memory, Wrapped(m.next + size), grants);
      if !ok then (Machine(next, memory), GrowFailed)
      else if m.next + |data| <= |memory|
      then (Machine(next, Overwritten(memory, m.next, data)), Written(m.next))
      else (Machine(next, memory), WriteFailed)
  }

  /** The memory of the fewest whole pages that holds `required` bytes, if what is there does not. */
  function Least(size: nat, required: nat): nat {
    if required <= size then size else (required + 65535) / PAGE * PAGE
  }

  lemma PagesLeast(size: nat, required: nat)
    requires size < required < TOP && size % PAGE == 0 && required - size + 65535 < TOP
    ensures size + PagesToGrow(required, size) * PAGE == Least(size, required)
  {
    var k := size / PAGE;
    assert size == k * PAGE;
    assert (required - size + 65535) / PAGE == (required + 65535) / PAGE - k;
  }

  lemma GrownLeast(memory: seq<Byte>, required: nat, grants: bool)
    requires |memory| <= TOP && |memory| % PAGE == 0 && 0 < required < TOP
    ensures var (ok, grown) := Grown(memory, required, grants);
            && memory <= grown && |grown| <= TOP && |grown| % PAGE == 0
            && (ok && required <= |grown| ==> |grown| == Least(|memory|, required))
  {
    var size := Wrapped(|memory|);
    if required > size {
      var pages := PagesToGrow(required, size);
      assert (|memory| + pages * PAGE) % PAGE == 0;
      if required - size + 65535 < TOP {
        if |memory| < TOP { PagesLeast(size, required); } else { assert pages >= 1; }
      }
    }
  }

  predicate Outside(k: nat, offset: nat, size: nat) { k < offset || offset + size <= k }

  predicate SameOutside(before: seq<Byte>, after: seq<Byte>, offset: nat, size: nat) {
    |before| <= |after| && forall k: nat :: k < |before| && Outside(k, offset, size) ==> after[k] == before[k]
  }

  lemma OverwrittenEffect(before: seq<Byte>, memory: seq<Byte>, offset: nat, data: seq<Byte>)
    requires before <= memory && offset + |data| <= |memory|
    ensures var after := Overwritten(memory, offset, data);
            after[offset..offset + |data|] == data && SameOutside(before, after, offset, |data|)
  {
  }

  lemma RoomFor(memory: seq<Byte>, next: nat, size: nat, grants: bool)
    requires |memory| <= TOP && |memory| % PAGE == 0 && 0 < next < TOP && size <= MAX_SIZE
    ensures var (ok, grown) := Grown(memory, Wrapped(next + size), grants);
            && memory <= grown && |grown| <= TOP && |grown| % PAGE == 0
            && (ok && next + size <= |grown| ==> |grown| == Least(|memory|, next + size))
  {
    if next + size != TOP { GrownLeast(memory, Wrapped(next + size), grants); }
  }

  /** The block is where the result says, and the memory has the fewest pages that hold it and what was there. */
  ghost predicate Landed(m: Machine, t: Machine, offset: nat, data: seq<Byte>) {
    && offset == m.next && |data| <= MAX_SIZE && t.next == Advance(m.next, |data|)
    && |t.memory| == Least(|m.memory|, offset + |data|) >= offset + |data|
    && t.memory[offset..offset + |data|] == data
    && SameOutside(m.memory, t.memory, offset, |data|)
  }

  lemma Fits(next: nat, n: nat, size: nat)
    requires BASE <= next && next + n <= size <= TOP
    ensures Truncated(n) == n
  {
  }

  lemma WrittenIs(m: Machine, data: seq<Byte>, grants: bool, size: nat, memory: seq<Byte>)
    requires WriteStep(m, data, grants).1.Written? && size == Truncated(|data|)
    requires memory == Grown(m.memory, Wrapped(m.next + size), grants).1
    ensures size <= MAX_SIZE && m.next + |data| <= |memory| && Grown(m.memory, Wrapped(m.next + size), grants).0
    ensures WriteStep(m, data, grants) ==
            (Machine(Advance(m.next, size), Overwritten(memory, m.next, data)), Written(m.next))
  {
  }

  lemma WriteLands(m: Machine, data: seq<Byte>, grants: bool)
    requires Sound(m) && BASE <= m.next && WriteStep(m, data, grants).1.Written?
    ensures Landed(m, WriteStep(m, data, grants).0, WriteStep(m, data, grants).1.offset, data)
    ensures Sound(WriteStep(m, data, grants).0)
  {
    var size := Truncated(|data|);
    AdvanceRounds(m.next, size);
    var (_, memory) := Grown(m.memory, Wrapped(m.next + size), grants);
    WrittenIs(m, data, grants, size, memory);
    RoomFor(m.memory, m.next, size, grants);
    Fits(m.next, |data|, |memory|);
    OverwrittenEffect(m.memory, memory, m.next, data);
  }

  lemma FailedWrite(m: Machine, data: seq<Byte>, grants: bool)
    requires Sound(m) && BASE <= m.next && !WriteStep(m, data, grants).1.Written?
    ensures Sound(WriteStep(m, data, grants).0) && m.memory <= WriteStep(m, data, grants).0.memory
  {
    var size := Truncated(|data|);
    if size <= MAX_SIZE {
      AdvanceRounds(m.next, size);
      RoomFor(m.memory, m.next, size, grants);
    }
  }

  /** A successful write changes nothing but its block, and a failed one not even that. */
  lemma WriteEffect(m: Machine, data: seq<Byte>, grants: bool)
    requires Sound(m) && BASE <= m.next
    ensures var (t, r) := WriteStep(m, data, grants);
            && Sound(t)
            && (r.Written? ==> Landed(m, t, r.offset, data))
            && (!r.Written? ==> m.memory <= t.memory)
  {
    if WriteStep(m, data, grants).1.Written? { WriteLands(m, data, grants); } else { FailedWrite(m, data, grants); }
  }

  /** When the host's growth leaves room for a block, below the top and at it. */
  lemma GrowsExactlyWhen(memory: seq<Byte>, required: nat, grants: bool)
    requires |memory| < 0x1_0000_0000 && |memory| % 65536 == 0 && |memory| < required < 0x1_0000_0000
    ensures var (ok, grown) := Grown(memory, required, grants);
            ok && required <= |grown| <==> grants && (|memory| > 0 || required + 65535 < 0x1_0000_0000)
  {
    if required - |memory| + 65535 < TOP {
      PagesLeast(|memory|, required);
    } else {
      assert |memory| == 0;
      assert PagesToGrow(required, 0) == (required + 65535 - TOP) / PAGE == 0;
    }
  }

  lemma FullGrowsExactlyWhen(memory: seq<Byte>, required: nat, grants: bool)
    requires |memory| == 0x1_0000_0000 && 65536 <= required < 0x1_0000_0000
    ensures Grown(memory, required, grants).0 <==> grants && required + 65535 >= 0x1_0000_0000
  {
    if required + 65535 >= TOP {
      assert PagesToGrow(required, 0) == (required + 65535 - TOP) / PAGE == 0;
    } else {
      assert PagesToGrow(required, 0) == (required + 65535) / PAGE >= 1;
    }
  }

  lemma WrittenWhenRoom(m: Machine, data: seq<Byte>, grants: bool)
    requires |data| <= 1048576
    ensures var (ok, grown) := Grown(m.memory, Wrapped(m.next + |data|), grants);
            WriteStep(m, data, grants).1.Written? <==> ok && m.next + |data| <= |grown|
  {
    assert Truncated(|data|) == |data|;
  }

  /** The block ends in the memory there is, or the host makes room; counted in 32 bits, at the very top, too. */
  predicate HasRoom(size: nat, end: nat, grants: bool) {
    if size < 0x1_0000_0000
    then end <= size || (grants && end < 0x1_0000_0000 && (size > 0 || end + 65535 < 0x1_0000_0000))
    else end == 0x1_0000_0000 || (grants && end < 0x1_0000_0000 <= end + 65535)
  }

  /** A write succeeds exactly with at most one mebibyte of data and room for it. */
  lemma WriteSucceedsExactlyWhen(m: Machine, data: seq<Byte>, grants: bool)
    requires Sound(m) && BASE <= m.next
    ensures WriteStep(m, data, grants).1.Written? <==> |data| <= 1048576 && HasRoom(|m.memory|, m.next + |data|, grants)
    ensures WriteStep(m, data, grants).1.TooLarge? <==> |data| % 0x1_0000_0000 > 1048576
  {
    var end := m.next + |data|;
    if |data| > 1048576 {
      if WriteStep(m, data, grants).1.Written? { WriteLands(m, data, grants); }
    } else {
      WrittenWhenRoom(m, data, grants);
      if end >= TOP {
        assert Wrapped(end) == end - TOP;
        RoomFor(m.memory, m.next, |data|, grants);
      } else if |m.memory| == TOP {
        FullGrowsExactlyWhen(m.memory, end, grants);
      } else if |m.memory| < end {
        GrowsExactlyWhen(m.memory, end, grants);
      }
    }
  }

  /** The pages that a write adds are zero but for its block. */
  lemma NewPagesAreZero(m: Machine, data: seq<Byte>, grants: bool)
    ensures var (t, r) := WriteStep(m, data, grants);
            |m.memory| <= |t.memory| &&
            forall k: nat :: |m.memory| <= k < |t.memory| && (r.Written? ==> k < r.offset || r.offset + |data| <= k) ==>
              t.memory[k] == 0
  {
  }

  /* ---------- Everything written is still there ---------- */

  /** The machine after these writes, of which any may fail. */
  function AfterWrites(m: Machine, datas: seq<seq<Byte>>, grants: nat -> bool): Machine {
    if datas == [] then m
    else WriteStep(AfterWrites(m, datas[..|datas| - 1], grants), datas[|datas| - 1], grants(|datas| - 1)).0
  }

  function OutcomeOf(m: Machine, datas: seq<seq<Byte>>, grants: nat -> bool, k: nat): Outcome
    requires k < |datas|
  {
    WriteStep(AfterWrites(m, datas[..k], grants), datas[k], grants(k)).1
  }

  /** The size of a block joins the others, unless the allocator refuses it. */
  function More(sizes: seq<nat>, data: seq<Byte>): seq<nat> {
    if Truncated(|data|) <= MAX_SIZE then sizes + [Truncated(|data|)] else sizes
  }

  function Taken(datas: seq<seq<Byte>>): seq<nat> {
    if datas == [] then [] else More(Taken(datas[..|datas| - 1]), datas[|datas| - 1])
  }

  lemma NextIsAfter(sizes: seq<nat>, size: nat)
    requires Allowed(sizes) && size <= MAX_SIZE && BASE + Rounded(sizes + [size]) < TOP
    ensures Allowed(sizes + [size]) && After(sizes + [size]) == Advance(After(sizes), size)
    ensures BASE <= After(sizes) && After(sizes) + size <= After(sizes + [size])
  {
    assert (sizes + [size])[..|sizes|] == sizes;
    AfterIsSum(sizes);
    AfterIsSum(sizes + [size]);
  }

  lemma MoreRounded(sizes: seq<nat>, data: seq<Byte>)
    ensures Rounded(sizes) <= Rounded(More(sizes, data))
  {
    if Truncated(|data|) <= MAX_SIZE { assert (sizes + [Truncated(|data|)])[..|sizes|] == sizes; }
  }

  lemma StepNext(m: Machine, data: seq<Byte>, grants: bool)
    ensures var t, size := WriteStep(m, data, grants).0, Truncated(|data|);
            t.next == if size <= MAX_SIZE then Advance(m.next, size) else m.next
  {
  }

  /** The machine stands where the allocator does after blocks of these sizes. */
  predicate Stands(m: Machine, sizes: seq<nat>) { Sound(m) && Allowed(sizes) && m.next == After(sizes) >= BASE }

  lemma StepStands(m: Machine, sizes: seq<nat>, data: seq<Byte>, grants: bool)
    requires Stands(m, sizes) && BASE + Rounded(More(sizes, data)) < TOP
    ensures var t := WriteStep(m, data, grants).0;
            && Stands(t, More(sizes, data))
            && m.next + (if Truncated(|data|) <= MAX_SIZE then Truncated(|data|) else 0) <= t.next
  {
    WriteEffect(m, data, grants);
    StepNext(m, data, grants);
    if Truncated(|data|) <= MAX_SIZE { NextIsAfter(sizes, Truncated(|data|)); }
  }

  /** The next offset is the allocator's, whatever failed. */
  lemma {:induction false} AfterWritesStand(memory: seq<Byte>, datas: seq<seq<Byte>>, grants: nat -> bool)
    requires Sound(Machine(BASE, memory)) && BASE + Rounded(Taken(datas)) < TOP
    ensures Stands(AfterWrites(Machine(BASE, memory), datas, grants), Taken(datas))
  {
    if datas != [] {
      var rest, last := datas[..|datas| - 1], datas[|datas| - 1];
      MoreRounded(Taken(rest), last);
      AfterWritesStand(memory, rest, grants);
      StepStands(AfterWrites(Machine(BASE, memory), rest, grants), Taken(rest), last, grants(|rest|));
    }
  }

  predicate Reads(m: Machine, offset: nat, data: seq<Byte>) {
    && offset + |data| <= m.next && offset + |data| <= |m.memory|
    && m.memory[offset..offset + |data|] == data
  }

  /** One more write, successful or not, leaves what lies below the next offset as it is. */
  lemma StepStillReads(m: Machine, data: seq<Byte>, grants: bool, offset: nat, earlier: seq<Byte>)
    requires Sound(m) && BASE <= m.next && Reads(m, offset, earlier) && m.next <= WriteStep(m, data, grants).0.next
    ensures Reads(WriteStep(m, data, grants).0, offset, earlier)
  {
    var (t, r) := WriteStep(m, data, grants);
    WriteEffect(m, data, grants);
    if r.Written? {
      StaysReadable(m.memory, t.memory, r.offset, |data|, offset, earlier);
    } else {
      assert t.memory[offset..offset + |earlier|] == m.memory[offset..offset + |earlier|];
    }
  }

  /** What a successful write puts down can be read back. */
  lemma StepReads(m: Machine, sizes: seq<nat>, data: seq<Byte>, grants: bool)
    requires Stands(m, sizes) && BASE + Rounded(More(sizes, data)) < TOP && WriteStep(m, data, grants).1.Written?
    ensures Reads(WriteStep(m, data, grants).0, WriteStep(m, data, grants).1.offset, data)
  {
    StepStands(m, sizes, data, grants);
    WriteEffect(m, data, grants);
    Fits(m.next, |data|, |WriteStep(m, data, grants).0.memory|);
  }

  /**
    Of any mixture of successful and failed writes since the last reset, with rounded sizes
    below the bound, every successful one can still be read back where it was put.
   */
  lemma {:induction false} EverythingReadable(memory: seq<Byte>, datas: seq<seq<Byte>>, grants: nat -> bool, k: nat)
    requires Sound(Machine(BASE, memory)) && BASE + Rounded(Taken(datas)) < TOP
    requires k < |datas| && OutcomeOf(Machine(BASE, memory), datas, grants, k).Written?
    ensures Reads(AfterWrites(Machine(BASE, memory), datas, grants),
                  OutcomeOf(Machine(BASE, memory), datas, grants, k).offset, datas[k])
    decreases |datas|
  {
    var n := |datas| - 1;
    var front, last := datas[..n], datas[n];
    var before := AfterWrites(Machine(BASE, memory), front, grants);
    MoreRounded(Taken(front), last);
    AfterWritesStand(memory, front, grants);
    if k == n {
      StepReads(before, Taken(front), last, grants(n));
    } else {
      assert front[..k] == datas[..k];
      EverythingReadable(memory, front, grants, k);
      StepStands(before, Taken(front), last, grants(n));
      StepStillReads(before, last, grants(n), OutcomeOf(Machine(BASE, memory), datas, grants, k).offset, datas[k]);
    }
  }

  lemma StaysReadable(before: seq<Byte>, after: seq<Byte>, offset: nat, size: nat, at: nat, data: seq<Byte>)
    requires SameOutside(before, after, offset, size) && at + |data| <= offset && at + |data| <= |before|
    requires before[at..at + |data|] == data
    ensures after[at..at + |data|] == data
  {
    forall i | 0 <= i < |data| ensures after[at + i] == data[i] {
      assert Outside(at + i, offset, size);
      assert before[at..at + |data|][i] == data[i];
    }
  }

  /* ---------- The allocator itself ---------- */

  class MemoryAllocator {
    var nextOffset: nat
    const maxSize: nat := MAX_SIZE

    constructor ()
      ensures nextOffset == BASE
    {
      nextOffset := 65536;
    }

    method Allocate(size: nat) returns (ok: bool, offset: nat)
      requires nextOffset < TOP && size < TOP
      modifies this
      ensures ok == (size <= MAX_SIZE)
      ensures ok ==> offset == old(nextOffset) && nextOffset == Advance(old(nextOffset), size)
      ensures !ok ==> nextOffset == old(nextOffset)
      ensures nextOffset < TOP
    {
      if size > maxSize { return false, 0; }
      offset := nextOffset;
      nextOffset := Wrapped(nextOffset + size);
      if nextOffset % 8 != 0 { nextOffset := Wrapped(nextOffset + 8 - nextOffset % 8); }
      return true, offset;
    }

    method Reset()
      modifies this
      ensures nextOffset == BASE
    {
      nextOffset := 65536;
    }
  }

  class WasmStrategy {
    const allocator: MemoryAllocator
    var memory: seq<Byte>

    ghost function Current(): Machine
      reads this, allocator
    {
      Machine(allocator.nextOffset, memory)
    }

    constructor (allocator: MemoryAllocator, memory: seq<Byte>)
      ensures this.allocator == allocator && Current() == Machine(allocator.nextOffset, memory)
    {
      this.allocator, this.memory := allocator, memory;
    }

    method WriteToMemory(data: seq<Byte>, grants: bool) returns (r: Outcome)
      requires Sound(Current())
      modifies this, allocator
      ensures (Current(), r) == WriteStep(old(Current()), data, grants)
    {
      var size := Truncated(|data|);
      var ok, offset := allocator.Allocate(size);
      if !ok { return TooLarge; }
      var memSize := Wrapped(|memory|);
      var requiredSize := Wrapped(offset + size);
      if requiredSize > memSize {
        var pages := PagesToGrow(requiredSize, memSize);
        if !grants || |memory| + pages * PAGE > TOP { return GrowFailed; }
        memory := memory + Zeros(pages * PAGE);
      }
      if offset + |data| > |memory| { return WriteFailed; }
      memory := Overwritten(memory, offset, data);
      return Written(offset);
    }
  }
}
