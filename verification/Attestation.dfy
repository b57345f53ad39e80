/** The hash of a binary without its attestation block. Bytes are modelled as characters. */
module Attestation {

  const BEGIN: string := "KAIROS_ATTEST_BEGIN"
  const END: string := "KAIROS_ATTEST_END"

  predicate At(body: string, needle: string, i: nat) {
    i + |needle| <= |body| && body[i..i + |needle|] == needle
  }

  ghost predicate Free(body: string, needle: string) {
    forall i: nat :: i <= |body| ==> !At(body, needle, i)
  }

  /** The first match, or -1. */
  ghost predicate IsFirst(body: string, needle: string, r: int) {
    if r < 0 then r == -1 && Free(body, needle)
    else At(body, needle, r) && forall i: nat :: i < r ==> !At(body, needle, i)
  }

  method IndexOf(body: string, needle: string) returns (r: int)
    ensures IsFirst(body, needle, r)
  {
    var i := 0;
    while i + |needle| <= |body|
      invariant forall k: nat :: k < i ==> !At(body, needle, k)
      decreases |body| - i
    {
      var match_ := true;
      var j := 0;
      while j < |needle|
        invariant j <= |needle| && match_ && body[i..i + j] == needle[..j]
      {
        if body[i + j] != needle[j] {
          match_ := false;
          assert body[i..i + |needle|][j] != needle[j];
          break;
        }
        assert body[i..i + j + 1] == body[i..i + j] + [body[i + j]];
        j := j + 1;
      }
      if match_ {
        assert needle[..|needle|] == needle;
        return i;
      }
      i := i + 1;
    }
    return -1;
  }

  /** What is hashed, given the first positions of the two markers. */
  function Trimmed(body: string, start: int, end: int): string
    requires -1 <= start && -1 <= end && (end >= 0 ==> end + |END| <= |body|)
  {
    if start >= 0 && end > start then body[..start] + body[end + |END|..] else body
  }

  /** The text that is hashed; the digest of it is not modelled. */
  method ExcludingAttestationBlock(body: string) returns (trimmed: string)
    ensures forall start, end :: IsFirst(body, BEGIN, start) && IsFirst(body, END, end) ==>
              trimmed == Trimmed(body, start, end)
    ensures HasBlock(body) <==> trimmed != body
    ensures forall p, x, s :: Block(body, p, x, s) ==> trimmed == p + s
  {
    var start := IndexOf(body, BEGIN);
    var end := IndexOf(body, END);
    trimmed := body;
    if start >= 0 && end > start {
      var cut := end + |END|;
      trimmed := body[..start];
      trimmed := trimmed + body[cut..];
    }
    OnlyOneFirst(body, BEGIN);
    OnlyOneFirst(body, END);
    TrimmedExactlyWhen(body, start, end);
    forall p, x, s | Block(body, p, x, s) ensures trimmed == p + s {
      BlockTrimmed(body, p, x, s, start, end);
    }
  }

  lemma OnlyOneFirst(body: string, needle: string)
    ensures forall a, b :: IsFirst(body, needle, a) && IsFirst(body, needle, b) ==> a == b
  {
    forall a, b | IsFirst(body, needle, a) && IsFirst(body, needle, b) ensures a == b {
      if a < 0 && b >= 0 { assert b <= |body|; }
      if b < 0 && a >= 0 { assert a <= |body|; }
    }
  }

  /* ---------- The block that is cut out ---------- */

  /** Text, a block, and more text: nothing before the block looks like a marker, nothing in it like its end. */
  ghost predicate Block(body: string, p: string, x: string, s: string) {
    body == p + BEGIN + x + END + s && Free(p, BEGIN) && Free(p, END) && Free(x, END)
  }

  ghost predicate HasBlock(body: string) { exists p, x, s :: Block(body, p, x, s) }

  /** A marker has its first letter nowhere else. */
  lemma FirstLetterOnce()
    ensures forall i: nat :: i < |BEGIN| ==> (BEGIN[i] == 'K' <==> i == 0)
    ensures forall i: nat :: i < |END| ==> (END[i] == 'K' <==> i == 0)
    ensures BEGIN[14] != END[14] && |BEGIN| == 19 && |END| == 17
  {
  }

  /** So no match of a marker straddles the start of another one. */
  lemma NoStraddle(p: string, marker: string, rest: string, needle: string, i: nat)
    requires marker == BEGIN || marker == END
    requires needle == BEGIN || needle == END
    requires i < |p| && Free(p, needle)
    ensures !At(p + marker + rest, needle, i)
  {
    FirstLetterOnce();
    var body := p + marker + rest;
    if i + |needle| <= |p| {
      assert p[i..i + |needle|] == body[i..i + |needle|];
      assert !At(p, needle, i);
    } else if i + |needle| <= |body| {
      assert body[|p|] == marker[0] == 'K';
      assert body[i..i + |needle|][|p| - i] == 'K' != needle[|p| - i];
    }
  }

  /** Nor does the end marker match anywhere in a begin marker. */
  lemma NotInBegin(p: string, rest: string, i: nat)
    requires |p| <= i < |p| + |BEGIN|
    ensures !At(p + BEGIN + rest, END, i)
  {
    FirstLetterOnce();
    var body := p + BEGIN + rest;
    if i + |END| <= |body| {
      if i == |p| {
        assert body[i..i + |END|][14] == BEGIN[14] != END[14];
      } else {
        assert body[i..i + |END|][0] == BEGIN[i - |p|] != END[0];
      }
    }
  }

  lemma AtShift(p: string, rest: string, needle: string, i: nat)
    ensures At(p + rest, needle, |p| + i) <==> At(rest, needle, i)
  {
    if i + |needle| <= |rest| {
      assert (p + rest)[|p| + i..|p| + i + |needle|] == rest[i..i + |needle|];
    }
  }

  lemma BlockMarkers(body: string, p: string, x: string, s: string)
    requires Block(body, p, x, s)
    ensures IsFirst(body, BEGIN, |p|) && IsFirst(body, END, |p| + |BEGIN| + |x|)
  {
    var rest := x + END + s;
    assert body == p + BEGIN + rest;
    assert body[|p|..|p| + |BEGIN|] == BEGIN;
    forall i: nat | i < |p| ensures !At(body, BEGIN, i) && !At(body, END, i) {
      NoStraddle(p, BEGIN, rest, BEGIN, i);
      NoStraddle(p, BEGIN, rest, END, i);
    }
    var head := p + BEGIN;
    assert body == head + rest;
    AtShift(head, rest, END, |x|);
    assert rest[|x|..|x| + |END|] == END;
    forall i: nat | i < |head| + |x| ensures !At(body, END, i) {
      if i < |p| {
      } else if i < |head| {
        NotInBegin(p, rest, i);
      } else {
        NoStraddle(x, END, s, END, i - |head|);
        AtShift(head, rest, END, i - |head|);
      }
    }
  }

  /** Exactly the block is cut out; so the hash does not depend on what is in it. */
  lemma BlockTrimmed(body: string, p: string, x: string, s: string, start: int, end: int)
    requires Block(body, p, x, s) && IsFirst(body, BEGIN, start) && IsFirst(body, END, end)
    ensures Trimmed(body, start, end) == p + s
  {
    BlockMarkers(body, p, x, s);
    OnlyOneFirst(body, BEGIN);
    OnlyOneFirst(body, END);
    assert body[..|p|] == p;
    assert body[end + |END|..] == s;
  }

  lemma FreePrefix(body: string, needle: string, n: nat)
    requires n <= |body| && forall i: nat :: i < n ==> !At(body, needle, i)
    requires |needle| > 0
    ensures Free(body[..n], needle)
  {
    forall i: nat | i <= n ensures !At(body[..n], needle, i) {
      if i + |needle| <= n {
        assert body[..n][i..i + |needle|] == body[i..i + |needle|];
        assert !At(body, needle, i);
      }
    }
  }

  /** Conversely, whatever is cut out is such a block. */
  lemma CutIsBlock(body: string, start: int, end: int) returns (p: string, x: string, s: string)
    requires IsFirst(body, BEGIN, start) && IsFirst(body, END, end) && 0 <= start < end
    ensures Block(body, p, x, s) && p == body[..start] && s == body[end + |END|..]
  {
    p, s := body[..start], body[end + |END|..];
    var tail := body[start + |BEGIN|..];
    assert body == p + BEGIN + tail;
    if end < start + |BEGIN| { NotInBegin(p, tail, end); }
    x := body[start + |BEGIN|..end];
    assert body == p + BEGIN + x + END + s;
    FreePrefix(body, BEGIN, start);
    FreePrefix(body, END, start);
    forall i: nat | i <= |x| ensures !At(x, END, i) {
      if i + |END| <= |x| {
        assert x[i..i + |END|] == body[start + |BEGIN| + i..start + |BEGIN| + i + |END|];
        assert !At(body, END, start + |BEGIN| + i);
      }
    }
  }

  /** The text changes exactly when it has such a block: when the first end marker is after the first begin marker. */
  lemma TrimmedExactlyWhen(body: string, start: int, end: int)
    requires IsFirst(body, BEGIN, start) && IsFirst(body, END, end)
    ensures Trimmed(body, start, end) != body <==> 0 <= start < end
    ensures HasBlock(body) <==> 0 <= start < end
  {
    if 0 <= start < end {
      var p, x, s := CutIsBlock(body, start, end);
      assert |Trimmed(body, start, end)| < |body|;
    }
    if HasBlock(body) {
      var p, x, s :| Block(body, p, x, s);
      BlockMarkers(body, p, x, s);
      OnlyOneFirst(body, BEGIN);
      OnlyOneFirst(body, END);
    }
  }

  /** Two binaries that differ only inside their block are hashed alike. */
  lemma PayloadDoesNotMatter(p: string, x: string, y: string, s: string, a: int, b: int, c: int, d: int)
    requires Free(p, BEGIN) && Free(p, END) && Free(x, END) && Free(y, END)
    requires IsFirst(p + BEGIN + x + END + s, BEGIN, a) && IsFirst(p + BEGIN + x + END + s, END, b)
    requires IsFirst(p + BEGIN + y + END + s, BEGIN, c) && IsFirst(p + BEGIN + y + END + s, END, d)
    ensures Trimmed(p + BEGIN + x + END + s, a, b) == Trimmed(p + BEGIN + y + END + s, c, d) == p + s
  {
    BlockTrimmed(p + BEGIN + x + END + s, p, x, s, a, b);
    BlockTrimmed(p + BEGIN + y + END + s, p, y, s, c, d);
  }

  /**
    A stray end marker before the block disables the cut: of the binaries with a block after
    some text, exactly those whose text has none are hashed without the block.
   */
  lemma StrayEndKeepsBlock(p: string, x: string, s: string, start: int, end: int)
    requires Free(p, BEGIN) && Free(x, END)
    requires IsFirst(p + BEGIN + x + END + s, BEGIN, start) && IsFirst(p + BEGIN + x + END + s, END, end)
    ensures Trimmed(p + BEGIN + x + END + s, start, end) == p + s <==> Free(p, END)
    ensures !Free(p, END) ==> Trimmed(p + BEGIN + x + END + s, start, end) == p + BEGIN + x + END + s
  {
    var body := p + BEGIN + x + END + s;
    if Free(p, END) {
      BlockTrimmed(body, p, x, s, start, end);
    } else {
      var i: nat :| i <= |p| && At(p, END, i);
      assert body[i..i + |END|] == p[i..i + |END|];
      assert At(body, END, i) && end <= i;
      assert body == p + BEGIN + (x + END + s);
      if 0 <= start < |p| { NoStraddle(p, BEGIN, x + END + s, BEGIN, start); }
      assert |p + s| < |body|;
    }
  }
}
