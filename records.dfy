/**
 * The records the DNSSEC builders and the responders put together: the
 * RDATA of A, DNSKEY, RRSIG and DS records, resource records and DNS
 * messages, with their wire forms and sizes.
 *
 * The `dns` package's record codec (Size, Encode and EncodeToBuffer of
 * each RDATA type and of DNSResourceRecord) is not part of this model;
 * its wire forms are written here from the standards they follow:
 * section 3.2.1 of RFC 1035 for a resource record (owner name, type,
 * class, TTL, RDATA length, RDATA), sections 2.1, 3.1 and 5.1 of RFC 4034
 * for DNSKEY, RRSIG and DS RDATA. The RDATA length written on the wire is
 * the RDATA's own size, not the record's stored RDLen field.
 */
module Records {
  import opened Octets
  import opened DomainNames

  // ---------------------------------------------------------------------
  // Registry values
  // ---------------------------------------------------------------------

  /** Resource record types (IANA DNS parameters). */
  const TYPE_A: u16 := 1
  const TYPE_DS: u16 := 43
  const TYPE_RRSIG: u16 := 46
  const TYPE_DNSKEY: u16 := 48

  /** The Internet class. */
  const CLASS_IN: u16 := 1

  /** Section 2.1.2 of RFC 4034: the Protocol field of a DNSKEY is always 3. */
  const DNSKEY_PROTOCOL: byte := 3

  /** DNSKEY flags: Zone Key (bit 7) and, for a key-signing key, also Secure Entry Point (bit 15). */
  const FLAG_ZONE_KEY: u16 := 256
  const FLAG_SECURE_ENTRY_POINT: u16 := 257

  /** The response code NoError. */
  const RCODE_NO_ERROR: byte := 0

  // ---------------------------------------------------------------------
  // RDATA
  // ---------------------------------------------------------------------

  /** An IPv4 address: four bytes. */
  type IPv4 = s: seq<byte> | |s| == 4 witness [0, 0, 0, 0]

  datatype Dnskey = Dnskey(flags: u16, protocol: byte, algorithm: byte, publicKey: seq<byte>)

  datatype Rrsig = Rrsig(
    typeCovered: u16, algorithm: byte, labels: byte, originalTtl: u32,
    expiration: u32, inception: u32, keyTag: u16, signerName: seq<byte>, signature: seq<byte>)

  datatype Ds = Ds(keyTag: u16, algorithm: byte, digestType: byte, digest: seq<byte>)

  datatype RData =
    | A(address: IPv4)
    | DnskeyData(key: Dnskey)
    | RrsigData(sig: Rrsig)
    | DsData(ds: Ds)

  /** Section 2.1 of RFC 4034: flags, protocol, algorithm, public key. */
  function DnskeyWire(k: Dnskey): (w: seq<byte>)
    ensures |w| == DnskeySize(k)
  {
    BE16(k.flags) + [k.protocol, k.algorithm] + k.publicKey
  }

  function DnskeySize(k: Dnskey): nat
  {
    4 + |k.publicKey|
  }

  /**
   * Section 3.1 of RFC 4034: type covered, algorithm, labels, original TTL,
   * expiration, inception, key tag, signer's name (uncompressed), signature.
   */
  function RrsigWire(r: Rrsig): (w: seq<byte>)
    requires |r.signerName| > 0
    ensures |w| == RrsigSize(r)
  {
    BE16(r.typeCovered) + [r.algorithm, r.labels] + BE32(r.originalTtl)
      + BE32(r.expiration) + BE32(r.inception) + BE16(r.keyTag)
      + NameWire(r.signerName) + r.signature
  }

  function RrsigSize(r: Rrsig): nat
    requires |r.signerName| > 0
  {
    18 + GetDomainNameWireLen(r.signerName) + |r.signature|
  }

  /** Section 5.1 of RFC 4034: key tag, algorithm, digest type, digest. */
  function DsWire(d: Ds): (w: seq<byte>)
    ensures |w| == DsSize(d)
  {
    BE16(d.keyTag) + [d.algorithm, d.digestType] + d.digest
  }

  function DsSize(d: Ds): nat
  {
    4 + |d.digest|
  }

  /** The names an RDATA carries are non-empty text (the encoders index their last byte). */
  predicate RDataNamed(d: RData)
  {
    d.RrsigData? ==> |d.sig.signerName| > 0
  }

  function RDataWire(d: RData): (w: seq<byte>)
    requires RDataNamed(d)
    ensures |w| == RDataSize(d)
  {
    match d
    case A(address) => address
    case DnskeyData(k) => DnskeyWire(k)
    case RrsigData(r) => RrsigWire(r)
    case DsData(ds) => DsWire(ds)
  }

  function RDataSize(d: RData): nat
    requires RDataNamed(d)
  {
    match d
    case A(_) => 4
    case DnskeyData(k) => DnskeySize(k)
    case RrsigData(r) => RrsigSize(r)
    case DsData(ds) => DsSize(ds)
  }

  // ---------------------------------------------------------------------
  // Resource records
  // ---------------------------------------------------------------------

  datatype ResourceRecord = ResourceRecord(name: seq<byte>, rrType: u16, rrClass: u16, ttl: u32, rdLen: u16, rdata: RData)

  predicate Named(rr: ResourceRecord)
  {
    |rr.name| > 0 && RDataNamed(rr.rdata)
  }

  /** Section 3.2.1 of RFC 1035, the RDATA length taken from the RDATA itself. */
  function RecordWire(rr: ResourceRecord): (w: seq<byte>)
    requires Named(rr)
    ensures |w| == RecordSize(rr)
  {
    NameWire(rr.name) + BE16(rr.rrType) + BE16(rr.rrClass) + BE32(rr.ttl)
      + BE16(U16(RDataSize(rr.rdata))) + RDataWire(rr.rdata)
  }

  function RecordSize(rr: ResourceRecord): nat
    requires Named(rr)
  {
    GetDomainNameWireLen(rr.name) + 10 + RDataSize(rr.rdata)
  }

  predicate AllNamed(rrs: seq<ResourceRecord>)
  {
    forall i :: 0 <= i < |rrs| ==> Named(rrs[i])
  }

  /** The wire forms of the records, one per record. */
  function Wires(rrs: seq<ResourceRecord>): (ws: seq<seq<byte>>)
    requires AllNamed(rrs)
    ensures |ws| == |rrs|
  {
    seq(|rrs|, i requires 0 <= i < |rrs| => RecordWire(rrs[i]))
  }

  /** The records one after the other, each in full wire form. */
  function RecordsWire(rrs: seq<ResourceRecord>): seq<byte>
    requires AllNamed(rrs)
  {
    Flatten(Wires(rrs), |rrs|)
  }

  /** The sizes of the first `n` records, added up. */
  function SizeSum(rrs: seq<ResourceRecord>, n: nat): nat
    requires AllNamed(rrs) && n <= |rrs|
  {
    if n == 0 then 0 else SizeSum(rrs, n - 1) + RecordSize(rrs[n - 1])
  }

  /** Pieces as long as the records' sizes make up, together, the records' sizes added up. */
  lemma {:induction false} SizeSumIsLength(rrs: seq<ResourceRecord>, ws: seq<seq<byte>>, n: nat)
    requires AllNamed(rrs) && n <= |rrs| == |ws|
    requires forall i :: 0 <= i < |rrs| ==> |ws[i]| == RecordSize(rrs[i])
    ensures SizeSum(rrs, n) == |Flatten(ws, n)|
  {
    if n > 0 {
      SizeSumIsLength(rrs, ws, n - 1);
      SizeSumStep(rrs, ws, n);
    }
  }

  /** One more record: its size and its piece's length are added on both sides. */
  lemma SizeSumStep(rrs: seq<ResourceRecord>, ws: seq<seq<byte>>, n: nat)
    requires AllNamed(rrs) && 0 < n <= |rrs| == |ws|
    requires SizeSum(rrs, n - 1) == |Flatten(ws, n - 1)| && |ws[n - 1]| == RecordSize(rrs[n - 1])
    ensures SizeSum(rrs, n) == |Flatten(ws, n)|
  {
  }

  /** The records together are as long as their sizes added up. */
  lemma RecordsWireLength(rrs: seq<ResourceRecord>)
    requires AllNamed(rrs)
    ensures |RecordsWire(rrs)| == SizeSum(rrs, |rrs|)
  {
    var ws := Wires(rrs);
    assert forall i :: 0 <= i < |rrs| ==> |ws[i]| == RecordSize(rrs[i]);
    SizeSumIsLength(rrs, ws, |rrs|);
  }

  /**
   * EncodeToBuffer of a record or an RDATA, writing into `buffer` from
   * `at` on (Go passes the slice `buffer[at:]`): -1 with nothing written
   * when the wire form `w` does not fit, else its length, with `w` at `at`
   * and every other byte left alone.
   */
  method EncodeToBuffer(w: seq<byte>, buffer: array<byte>, at: nat) returns (n: int)
    requires at <= buffer.Length
    modifies buffer
    ensures buffer.Length - at < |w| ==> n == -1 && buffer[..] == old(buffer[..])
    ensures buffer.Length - at >= |w| ==>
      && n == |w|
      && buffer[at..at + |w|] == w
      && buffer[..at] == old(buffer[..at])
      && buffer[at + |w|..] == old(buffer[at + |w|..])
  {
    if buffer.Length - at < |w| {
      return -1;
    }
    CopyInto(buffer, at, w);
    n := |w|;
  }

  /**
   * EncodeToBuffer into a buffer being filled with `target`: when `w` is
   * what comes next in `target`, the buffer is then filled up to the end
   * of `w`.
   */
  method EncodeNext(w: seq<byte>, buffer: array<byte>, ghost target: seq<byte>, at: nat) returns (next: nat)
    requires Filled(buffer[..], target, at) && at + |w| <= |target| && target[at..at + |w|] == w
    modifies buffer
    ensures Filled(buffer[..], target, next) && next == at + |w|
  {
    ghost var before := buffer[..];
    var n := EncodeToBuffer(w, buffer, at);
    next := at + n;
    FilledGrows(before, buffer[..], target, w, at, |w|, |w|, next);
  }

  /**
   * The loop that encodes records one after another: each wire form in
   * `ws` is written where the previous one ended, so that the buffer is
   * filled with all of them after `head`.
   */
  method EncodeAll(ws: seq<seq<byte>>, buffer: array<byte>, ghost target: seq<byte>, ghost head: seq<byte>, start: nat)
    returns (next: nat)
    requires target == head + Flatten(ws, |ws|) && Filled(buffer[..], target, start) && start == |head|
    modifies buffer
    ensures Filled(buffer[..], target, next) && next == |target|
  {
    next := start;
    var i: nat := 0;
    while i < |ws|
      invariant i <= |ws| && Filled(buffer[..], target, next) && next == |head| + |Flatten(ws, i)|
    {
      FlattenSlot(ws, i, ws[i], head, target, next);
      next := EncodeNext(ws[i], buffer, target, next);
      i := i + 1;
    }
  }

  // ---------------------------------------------------------------------
  // Labels of an owner name
  // ---------------------------------------------------------------------

  /** The number of '.' bytes in `u`. */
  function Dots(u: seq<byte>): (n: nat)
    ensures n <= |u|
  {
    if |u| == 0 then 0 else Dots(u[..|u| - 1]) + (if u[|u| - 1] == DOT then 1 else 0)
  }

  /**
   * CountDomainNameLabels, which is not part of this model: the number of
   * labels of a name, the root label not counted (the Labels field of
   * section 3.1.3 of RFC 4034).
   */
  function CountDomainNameLabels(name: seq<byte>): (n: nat)
    requires |name| > 0
    ensures name == [DOT] ==> n == 0
  {
    if name == [DOT] then 0 else Dots(Absolute(name))
  }

  lemma {:induction false} DotsAppend(a: seq<byte>, b: seq<byte>)
    ensures Dots(a + b) == Dots(a) + Dots(b)
    decreases |b|
  {
    if |b| == 0 {
      assert a + b == a;
    } else {
      DotsAppend(a, b[..|b| - 1]);
      assert (a + b)[..|a + b| - 1] == a + b[..|b| - 1];
    }
  }

  lemma {:induction false} NoDots(l: seq<byte>)
    requires forall k :: 0 <= k < |l| ==> l[k] != DOT
    ensures Dots(l) == 0
    decreases |l|
  {
    if |l| > 0 {
      NoDots(l[..|l| - 1]);
    }
  }

  /** A name made of k labels has a label count of k. */
  lemma {:induction false} JoinedLabelCount(labels: seq<seq<byte>>)
    requires forall i :: 0 <= i < |labels| ==> PlainLabel(labels[i])
    ensures Dots(JoinLabels(labels)) == |labels|
  {
    if |labels| > 0 {
      var l := labels[0];
      assert PlainLabel(l);
      JoinedLabelCount(labels[1..]);
      NoDots(l);
      DotsAppend(l, [DOT]);
      DotsAppend(l + [DOT], JoinLabels(labels[1..]));
    }
  }

  lemma LabelCountOfLabels(labels: seq<seq<byte>>, name: seq<byte>)
    requires |labels| > 0 && forall i :: 0 <= i < |labels| ==> PlainLabel(labels[i])
    requires name == JoinLabels(labels) || name + [DOT] == JoinLabels(labels)
    ensures |name| > 0 && CountDomainNameLabels(name) == |labels|
  {
    JoinLabelsShape(labels);
    AbsoluteOfJoin(JoinLabels(labels), name);
    JoinedLabelCount(labels);
  }

  // ---------------------------------------------------------------------
  // Messages
  // ---------------------------------------------------------------------

  /** The 12-byte header of section 4.1.1 of RFC 1035, field by field. */
  datatype Header = Header(
    id: u16, qr: bool, opCode: byte, aa: bool, tc: bool, rd: bool, ra: bool, z: byte,
    rCode: byte, qdCount: u16, anCount: u16, nsCount: u16, arCount: u16)

  datatype Question = Question(name: seq<byte>, qType: u16, qClass: u16)

  datatype Message = Message(
    header: Header, question: seq<Question>,
    answer: seq<ResourceRecord>, authority: seq<ResourceRecord>, additional: seq<ResourceRecord>)
}
