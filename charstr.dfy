/**
 * The character-string codec of dns/standard.go (lines 188-267): a byte
 * string travels as chunks of at most 255 bytes, each after a length
 * byte (section 3.3 of RFC 1035 defines one such chunk; the codec splits
 * longer strings into several). The empty string is the single byte 0.
 */
module CharacterStrings {
  import opened Octets

  /** GetCharacterStrWireLen: one length byte per 255 bytes or part of it. */
  function GetCharacterStrWireLen(s: seq<byte>): (n: nat)
    ensures n >= |s| + 1
  {
    if |s| == 0 then 1 else |s| + (|s| + 254) / 255
  }

  /**
   * The wire form: full 255-byte chunks while more than 255 bytes remain,
   * then one chunk with the rest (1 to 255 bytes, or the empty chunk for
   * the empty string).
   */
  function Chunks(s: seq<byte>): (w: seq<byte>)
    ensures |w| > |s| && w[0] == if |s| <= 255 then |s| else 255
    decreases |s|
  {
    if |s| <= 255 then [|s|] + s else [255] + s[..255] + Chunks(s[255..])
  }

  /** GetCharacterStrWireLen is the length of the wire form. */
  lemma {:induction false} ChunksLength(s: seq<byte>)
    ensures |Chunks(s)| == GetCharacterStrWireLen(s)
    decreases |s|
  {
    if |s| > 255 {
      ChunksLength(s[255..]);
      assert GetCharacterStrWireLen(s) == 256 + GetCharacterStrWireLen(s[255..]);
    }
  }

  // ---------------------------------------------------------------------
  // Encoding
  // ---------------------------------------------------------------------

  /** One chunk at `start`: its length byte, then its bytes; nothing else changes. */
  method PutChunk(buffer: array<byte>, start: nat, bytes: seq<byte>)
    requires start + 1 + |bytes| <= buffer.Length
    modifies buffer
    ensures buffer[start] == Byte(|bytes|) && buffer[start + 1..start + 1 + |bytes|] == bytes
    ensures forall q :: 0 <= q < buffer.Length && (q < start || start + 1 + |bytes| <= q) ==> buffer[q] == old(buffer[q])
  {
    buffer[start] := Byte(|bytes|);
    CopyInto(buffer, start + 1, bytes);
    assert buffer[start] == buffer[..start + 1][start];
  }

  /**
   * The encoder's loop has consumed `raw` bytes of `s` and written `en`
   * bytes of wire form; what remains to be written is the wire form of
   * the rest of `s`, and it fits.
   */
  predicate EncodedSoFar(b: seq<byte>, s: seq<byte>, raw: nat, en: nat)
  {
    raw < |s| && |Chunks(s)| <= |b| && en <= |b| && b[..en] + Chunks(s[raw..]) == Chunks(s)
  }

  /** More than 255 bytes left: the next chunk is a full one. */
  lemma FullChunk(s: seq<byte>, raw: nat)
    requires raw + 255 < |s|
    ensures Chunks(s[raw..]) == [255] + s[raw..raw + 255] + Chunks(s[raw + 255..])
  {
    var t := s[raw..];
    assert t[..255] == s[raw..raw + 255];
    assert t[255..] == s[raw + 255..];
  }

  /** A prefix grows by one length byte and the bytes after it. */
  lemma PrefixGrows(b: seq<byte>, b': seq<byte>, en: nat, bytes: seq<byte>)
    requires en + 1 + |bytes| <= |b| == |b'|
    requires forall q :: 0 <= q < en ==> b'[q] == b[q]
    requires b'[en] == |bytes| && b'[en + 1..en + 1 + |bytes|] == bytes
    ensures b'[..en + 1 + |bytes|] == b[..en] + [|bytes|] + bytes
  {
    var x := b'[..en + 1 + |bytes|];
    var y := b[..en] + [|bytes|] + bytes;
    forall i | 0 <= i < |x|
      ensures x[i] == y[i]
    {
      if en < i {
        assert x[i] == b'[en + 1..en + 1 + |bytes|][i - en - 1];
      }
    }
  }

  lemma FullChunkWritten(b: seq<byte>, b': seq<byte>, s: seq<byte>, raw: nat, en: nat)
    requires EncodedSoFar(b, s, raw, en) && raw + 255 < |s| && en + 256 <= |b'| == |b|
    requires forall q :: 0 <= q < en ==> b'[q] == b[q]
    requires b'[en] == 255 && b'[en + 1..en + 256] == s[raw..raw + 255]
    ensures EncodedSoFar(b', s, raw + 255, en + 256)
  {
    FullChunk(s, raw);
    var piece := s[raw..raw + 255];
    PrefixGrows(b, b', en, piece);
    assert b'[..en + 256] + Chunks(s[raw + 255..]) == b[..en] + ([255] + piece + Chunks(s[raw + 255..]));
  }

  lemma LastChunkWritten(b: seq<byte>, b': seq<byte>, s: seq<byte>, raw: nat, en: nat)
    requires EncodedSoFar(b, s, raw, en) && |s| <= raw + 255 && en + 1 + |s| - raw <= |b'| == |b|
    requires forall q :: 0 <= q < en ==> b'[q] == b[q]
    requires b'[en] == |s| - raw && b'[en + 1..en + 1 + |s| - raw] == s[raw..]
    ensures b'[..|Chunks(s)|] == Chunks(s)
  {
    var t := s[raw..];
    assert Chunks(t) == [|t|] + t;
    PrefixGrows(b, b', en, t);
  }

  /** One pass of the encoder's loop: a full chunk is written and the loop moves on by 255 bytes. */
  method PutFullChunk(s: seq<byte>, buffer: array<byte>, raw: nat, en: nat)
    requires EncodedSoFar(buffer[..], s, raw, en) && raw + 255 < |s|
    modifies buffer
    ensures EncodedSoFar(buffer[..], s, raw + 255, en + 256)
    ensures forall q :: en + 256 <= q < buffer.Length ==> buffer[q] == old(buffer[q])
  {
    FullChunk(s, raw);
    ghost var before := buffer[..];
    PutChunk(buffer, en, s[raw..raw + 255]);
    FullChunkWritten(before, buffer[..], s, raw, en);
  }

  /** The encoder's final chunk: the rest of the string, which completes the wire form. */
  method PutLastChunk(s: seq<byte>, buffer: array<byte>, raw: nat, en: nat)
    requires EncodedSoFar(buffer[..], s, raw, en) && |s| <= raw + 255
    modifies buffer
    ensures buffer[..|Chunks(s)|] == Chunks(s)
    ensures forall q :: |Chunks(s)| <= q < buffer.Length ==> buffer[q] == old(buffer[q])
  {
    assert Chunks(s[raw..]) == [|s| - raw] + s[raw..];
    ghost var before := buffer[..];
    PutChunk(buffer, en, s[raw..]);
    LastChunkWritten(before, buffer[..], s, raw, en);
  }

  /**
   * The chunk loop shared by both encoders (dns/standard.go:208-218 and
   * 236-246): the wire form of a non-empty string is written at the start
   * of `buffer`, and nothing after it changes.
   */
  method PutChunks(s: seq<byte>, buffer: array<byte>)
    requires |s| > 0 && GetCharacterStrWireLen(s) <= buffer.Length
    modifies buffer
    ensures buffer[..GetCharacterStrWireLen(s)] == Chunks(s)
    ensures forall q :: GetCharacterStrWireLen(s) <= q < buffer.Length ==> buffer[q] == old(buffer[q])
  {
    ChunksLength(s);
    var raw: nat := 0;
    var en: nat := 0;
    assert buffer[..0] + Chunks(s[0..]) == Chunks(s);
    while raw + 255 < |s|
      invariant EncodedSoFar(buffer[..], s, raw, en)
      invariant forall q :: en <= q < buffer.Length ==> buffer[q] == old(buffer[q])
      decreases |s| - raw
    {
      PutFullChunk(s, buffer, raw, en);
      raw := raw + 255;
      en := en + 256;
    }
    if raw < |s| {
      PutLastChunk(s, buffer, raw, en);
    }
  }

  /** EncodeCharacterStr: the wire form of `s`. */
  method EncodeCharacterStr(s: seq<byte>) returns (wire: seq<byte>)
    ensures wire == Chunks(s)
  {
    if |s| == 0 {
      return [0];
    }
    var encodedLen := GetCharacterStrWireLen(s);
    ChunksLength(s);
    var byteArray := new byte[encodedLen];
    PutChunks(s, byteArray);
    wire := byteArray[..];
  }

  /**
   * EncodeCharacterStrToBuffer: the wire form written at the start of
   * `buffer`, returning its length, or -1 with `buffer` untouched when it
   * is too small.
   */
  method EncodeCharacterStrToBuffer(s: seq<byte>, buffer: array<byte>) returns (n: int)
    modifies buffer
    ensures buffer.Length < GetCharacterStrWireLen(s) ==> n == -1 && buffer[..] == old(buffer[..])
    ensures buffer.Length >= GetCharacterStrWireLen(s) ==>
      && n == GetCharacterStrWireLen(s)
      && buffer[..n] == Chunks(s)
      && buffer[n..] == old(buffer[n..])
  {
    var encodedLen := GetCharacterStrWireLen(s);
    if buffer.Length < encodedLen {
      return -1;
    }
    if |s| == 0 {
      buffer[0] := 0;
      assert buffer[..1] == [0];
      return 1;
    }
    PutChunks(s, buffer);
    n := encodedLen;
    ghost var rest := buffer[n..];
    forall i | 0 <= i < |rest|
      ensures rest[i] == old(buffer[n..])[i]
    {
    }
  }

  // ---------------------------------------------------------------------
  // Decoding
  // ---------------------------------------------------------------------

  /**
   * The bytes of every chunk in `data`, in order, or None when a chunk's
   * length byte reaches past the end of `data` (the Go slice expression
   * then panics).
   */
  function Unchunk(data: seq<byte>): (r: Option<seq<byte>>)
    ensures r.Some? ==> |r.value| <= |data|
    decreases |data|
  {
    if |data| == 0 then Some([])
    else
      var n := data[0] as int;
      if |data| < n + 1 then None
      else
        match Unchunk(data[n + 1..])
        case Some(rest) => Some(data[1..n + 1] + rest)
        case None => None
  }

  /** DecodeCharacterStr: a single byte always reads as the empty string, whatever its value. */
  function DecodedText(data: seq<byte>): (r: Option<seq<byte>>)
    ensures |data| == 1 ==> r == Some([])
    ensures |data| != 1 ==> r == Unchunk(data)
  {
    if |data| == 1 then Some([]) else Unchunk(data)
  }

  /** `text` followed by what the rest decodes to. */
  function Then(text: seq<byte>, rest: Option<seq<byte>>): Option<seq<byte>>
  {
    match rest
    case Some(t) => Some(text + t)
    case None => None
  }

  /** The decoder's loop has read `raw` bytes of `data` and produced `de` bytes of text. */
  predicate DecodedSoFar(b: seq<byte>, data: seq<byte>, raw: nat, de: nat)
  {
    de <= raw <= |data| == |b| && Unchunk(data) == Then(b[..de], Unchunk(data[raw..]))
  }

  lemma ThenGrows(x: seq<byte>, y: seq<byte>, o: Option<seq<byte>>)
    ensures Then(x + y, o) == Then(x, Then(y, o))
  {
    match o
    case Some(t) =>
      assert x + y + t == x + (y + t);
    case None =>
  }

  lemma ChunkRead(b: seq<byte>, b': seq<byte>, data: seq<byte>, raw: nat, de: nat, n: nat)
    requires DecodedSoFar(b, data, raw, de) && raw < |data| && n == data[raw] as int && raw + n + 1 <= |data|
    requires |b'| == |b| && b'[..de] == b[..de] && b'[de..de + n] == data[raw + 1..raw + n + 1]
    ensures DecodedSoFar(b', data, raw + n + 1, de + n)
  {
    var t := data[raw..];
    assert t[1..n + 1] == data[raw + 1..raw + n + 1];
    assert t[n + 1..] == data[raw + n + 1..];
    assert Unchunk(t) == Then(data[raw + 1..raw + n + 1], Unchunk(data[raw + n + 1..]));
    assert b'[..de + n] == b[..de] + data[raw + 1..raw + n + 1] by {
      assert b'[..de + n] == b'[..de] + b'[de..de + n];
    }
    ThenGrows(b[..de], data[raw + 1..raw + n + 1], Unchunk(data[raw + n + 1..]));
  }

  lemma ChunkOverruns(data: seq<byte>, raw: nat)
    requires raw < |data| && |data| < raw + data[raw] as int + 1
    ensures Unchunk(data[raw..]) == None
  {
  }

  /** The decoder's loop body: the chunk at `raw` copied to `de` in `b`. */
  method CopyChunk(b: array<byte>, data: seq<byte>, raw: nat, de: nat)
    requires DecodedSoFar(b[..], data, raw, de) && raw < |data| && raw + data[raw] as int + 1 <= |data|
    modifies b
    ensures DecodedSoFar(b[..], data, raw + data[raw] as int + 1, de + data[raw] as int)
  {
    ghost var before := b[..];
    var n := data[raw] as int;
    CopyInto(b, de, data[raw + 1..raw + n + 1]);
    ChunkRead(before, b[..], data, raw, de, n);
  }

  /**
   * DecodeCharacterStr: the text of every chunk in `data`, or None where
   * the source panics on a chunk that runs past the end.
   */
  method DecodeCharacterStr(data: seq<byte>) returns (r: Option<seq<byte>>)
    ensures r == DecodedText(data)
  {
    var dLen := |data|;
    if dLen == 1 {
      return Some([]);
    }
    var rstBytes := new byte[dLen];
    var raw: nat := 0;
    var de: nat := 0;
    assert Then(rstBytes[..0], Unchunk(data[0..])) == Unchunk(data) by {
      assert data[0..] == data;
      match Unchunk(data)
      case Some(t) =>
        assert rstBytes[..0] + t == t;
      case None =>
    }
    while raw < dLen
      invariant DecodedSoFar(rstBytes[..], data, raw, de)
      decreases dLen - raw
    {
      var strLen := data[raw] as int;
      if dLen < raw + strLen + 1 {
        ChunkOverruns(data, raw);
        return None;
      }
      CopyChunk(rstBytes, data, raw, de);
      raw := raw + strLen + 1;
      de := de + strLen;
    }
    assert data[raw..] == [];
    assert rstBytes[..de] + [] == rstBytes[..de];
    return Some(rstBytes[..de]);
  }

  // ---------------------------------------------------------------------
  // Properties
  // ---------------------------------------------------------------------

  /** One chunk that fits: its bytes, then whatever follows it decodes to. */
  lemma UnchunkStep(data: seq<byte>)
    requires |data| > 0 && data[0] as int + 1 <= |data|
    ensures Unchunk(data) == Then(data[1..data[0] as int + 1], Unchunk(data[data[0] as int + 1..]))
  {
  }

  /** The wire form of `s` followed by anything decodes to `s` followed by what that decodes to. */
  lemma {:induction false} UnchunkPrefix(s: seq<byte>, t: seq<byte>)
    ensures Unchunk(Chunks(s) + t) == Then(s, Unchunk(t))
    decreases |s|
  {
    var v := Chunks(s) + t;
    if |s| <= 255 {
      UnchunkStep(v);
      assert v[1..|s| + 1] == s;
      assert v[|s| + 1..] == t;
    } else {
      var rest := Chunks(s[255..]) + t;
      assert v == [255] + s[..255] + rest;
      UnchunkStep(v);
      assert v[1..256] == s[..255];
      assert v[256..] == rest;
      UnchunkPrefix(s[255..], t);
      ThenGrows(s[..255], s[255..], Unchunk(t));
      assert s[..255] + s[255..] == s;
    }
  }

  /** Decoding the wire form of any string gives the string back. */
  lemma UnchunkChunks(s: seq<byte>)
    ensures Unchunk(Chunks(s)) == Some(s)
  {
    UnchunkPrefix(s, []);
    assert Chunks(s) + [] == Chunks(s);
    assert s + [] == s;
  }

  lemma DecodeEncodeRoundTrip(s: seq<byte>)
    ensures DecodedText(Chunks(s)) == Some(s)
  {
    UnchunkChunks(s);
  }

  /** A 300-byte string travels as a full chunk and a 45-byte chunk: 302 bytes. */
  lemma ThreeHundredBytes(s: seq<byte>)
    requires |s| == 300
    ensures Chunks(s) == [255] + s[..255] + [45] + s[255..]
    ensures GetCharacterStrWireLen(s) == 302
  {
  }

  /** The decoder reads every chunk up to the end of its input, so two strings in a row decode as one. */
  lemma UnchunkConcatenates(a: seq<byte>, b: seq<byte>)
    ensures Unchunk(Chunks(a) + Chunks(b)) == Some(a + b)
  {
    UnchunkPrefix(a, Chunks(b));
    UnchunkChunks(b);
  }
}
