/**
 * Octet-level vocabulary shared by the name codec, the DNSSEC builders and
 * the responders: bytes, the fixed-width unsigned integers of the wire
 * format, Go's truncating integer conversions, big-endian encodings and the
 * Option/Result wrappers that stand in for Go's (value, error) pairs and
 * panics.
 */
module Octets {

  type byte = b: int | 0 <= b < 0x100
  type u16 = x: int | 0 <= x < 0x1_0000
  type u32 = x: int | 0 <= x < 0x1_0000_0000

  /** The '.' that separates the labels of a textual domain name. */
  const DOT: byte := 0x2E

  /** Go's `byte(x)`, `uint16(x)` and `uint32(x)`: keep the low-order bits. */
  function Byte(x: int): byte { x % 0x100 }
  function U16(x: int): u16 { x % 0x1_0000 }
  function U32(x: int): u32 { x % 0x1_0000_0000 }

  /** Network (big-endian) byte order. */
  function BE16(x: u16): (r: seq<byte>)
    ensures |r| == 2 && r[0] as int * 0x100 + r[1] == x
  {
    [x / 0x100, x % 0x100]
  }

  function BE32(x: u32): (r: seq<byte>)
    ensures |r| == 4 && (r[0] as int * 0x100 + r[1]) * 0x1_0000 + r[2] as int * 0x100 + r[3] == x
  {
    BE16(x / 0x1_0000) + BE16(x % 0x1_0000)
  }

  /** The bytes of an ASCII string literal. */
  function Ascii(s: string): (r: seq<byte>)
    requires forall i :: 0 <= i < |s| ==> s[i] as int < 0x100
    ensures |r| == |s| && forall i :: 0 <= i < |s| ==> r[i] == s[i] as int
  {
    seq(|s|, i requires 0 <= i < |s| => s[i] as int)
  }

  /**
   * Go's `copy(buffer[at:], w)` when the destination has room: the bytes of
   * `w` land at `at`, everything else is left alone.
   */
  method CopyInto(buffer: array<byte>, at: nat, w: seq<byte>)
    requires at + |w| <= buffer.Length
    modifies buffer
    ensures buffer[at..at + |w|] == w
    ensures buffer[..at] == old(buffer[..at])
    ensures buffer[at + |w|..] == old(buffer[at + |w|..])
  {
    forall k | at <= k < at + |w| {
      buffer[k] := w[k - at];
    }
  }

  lemma SliceOfSlice<T>(s: seq<T>, a: nat, b: nat, c: nat, d: nat)
    requires a <= b <= |s| && c <= d <= b - a
    ensures s[a..b][c..d] == s[a + c..a + d]
  {
    var x := s[a..b][c..d];
    var y := s[a + c..a + d];
    forall i | 0 <= i < |x|
      ensures x[i] == y[i]
    {
    }
  }

  lemma TakeAppend<T>(x: seq<T>, y: seq<T>)
    ensures (x + y)[..|x|] == x && (x + y)[|x|..] == y
  {
  }

  /** A prefix grows by a slice and the element after it. */
  lemma TakeGrow<T>(s: seq<T>, i: nat, j: nat)
    requires i <= j < |s|
    ensures s[..i] + s[i..j] + [s[j]] == s[..j + 1]
  {
  }

  /** A suffix splits into a slice, the element after it and the rest. */
  lemma DropGrow<T>(s: seq<T>, i: nat, j: nat)
    requires i <= j < |s|
    ensures s[i..j] + [s[j]] + s[j + 1..] == s[i..]
  {
  }

  lemma AppendAssoc<T>(a: seq<T>, b: seq<T>, c: seq<T>)
    ensures a + b + c == a + (b + c)
  {
  }

  /** A sequence made of `x` followed by `y` is `x + y`. */
  lemma Joined<T>(b: seq<T>, x: seq<T>, y: seq<T>)
    requires |b| == |x| + |y| && b[..|x|] == x && b[|x|..] == y
    ensures b == x + y
  {
    assert b == b[..|x|] + b[|x|..];
  }

  /** The first `offset` elements of `b` are those of `target`, which is as long as `b`. */
  predicate Filled<T(==)>(b: seq<T>, target: seq<T>, offset: nat)
  {
    offset <= |b| == |target| && b[..offset] == target[..offset]
  }

  /**
   * Writing `w`, the next `n` elements of `target`, after a filled prefix
   * fills up to `next`; `m` is the same length as the writer states it.
   */
  lemma FilledGrows<T>(b: seq<T>, b': seq<T>, target: seq<T>, w: seq<T>, offset: nat, m: nat, n: nat, next: nat)
    requires Filled(b, target, offset) && offset + n <= |b| == |b'| && m == n && next == offset + n
    requires b'[..offset] == b[..offset] && b'[offset..offset + m] == w && target[offset..offset + n] == w
    ensures Filled(b', target, next)
  {
    assert b'[..offset + n] == b'[..offset] + b'[offset..offset + n];
    assert target[..offset + n] == target[..offset] + target[offset..offset + n];
  }

  /** The first `n` pieces of `ws`, one after the other. */
  function Flatten<T>(ws: seq<seq<T>>, n: nat): seq<T>
    requires n <= |ws|
  {
    if n == 0 then [] else Flatten(ws, n - 1) + ws[n - 1]
  }

  /** The first `j` pieces begin the first `k`. */
  lemma {:induction false} FlattenPrefix<T>(ws: seq<seq<T>>, j: nat, k: nat)
    requires j <= k <= |ws|
    ensures |Flatten(ws, j)| <= |Flatten(ws, k)|
    ensures Flatten(ws, k)[..|Flatten(ws, j)|] == Flatten(ws, j)
    decreases k
  {
    if j < k {
      FlattenPrefix(ws, j, k - 1);
      assert Flatten(ws, k)[..|Flatten(ws, j)|] == Flatten(ws, k - 1)[..|Flatten(ws, j)|];
    }
  }

  /**
   * In `head` followed by all the pieces, piece `i` sits right after
   * `head` and the pieces before it.
   */
  lemma FlattenSlot<T>(ws: seq<seq<T>>, i: nat, w: seq<T>, head: seq<T>, target: seq<T>, offset: nat)
    requires i < |ws| && w == ws[i] && target == head + Flatten(ws, |ws|) && offset == |head| + |Flatten(ws, i)|
    ensures offset + |w| == |head| + |Flatten(ws, i + 1)| <= |target|
    ensures target[offset..offset + |w|] == w
  {
    var all := Flatten(ws, |ws|);
    var done := Flatten(ws, i);
    FlattenPrefix(ws, i + 1, |ws|);
    assert all[..|done| + |ws[i]|] == done + ws[i];
    assert all[|done|..|done| + |ws[i]|] == ws[i];
    assert target[offset..offset + |ws[i]|] == all[|done|..|done| + |ws[i]|];
  }

  lemma Middle<T>(pre: seq<T>, w: seq<T>, post: seq<T>)
    ensures (pre + w + post)[|pre|..|pre| + |w|] == w
  {
    var x := (pre + w + post)[|pre|..|pre| + |w|];
    forall i | 0 <= i < |w|
      ensures x[i] == w[i]
    {
    }
  }

  datatype Option<+T> = None | Some(value: T)

  datatype Result<+T, +E> = Success(value: T) | Failure(error: E)
}
