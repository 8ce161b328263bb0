/**
 * The DNSSEC builders of dns/xperi/dnssec.go: the key tag of Appendix B
 * of RFC 4034, DNSKEY generation, RRSIG generation over a record set
 * (section 3.1.8.1 of RFC 4034), DS generation (section 5.1.4 of RFC 4034)
 * and the algorithm factory.
 *
 * Key generation, signing, hashing and the random source are library
 * calls; they are the fields of a `Crypto` value handed to every builder.
 * A key generation is identified by a draw number: two generations with
 * different draws may give different keys.
 */
module Dnssec {
  import opened Octets
  import opened DomainNames
  import opened Records

  // ---------------------------------------------------------------------
  // Algorithms and digests
  // ---------------------------------------------------------------------

  /** DNSSEC algorithm numbers (IANA). */
  const ALGORITHM_RSASHA1: byte := 5
  const ALGORITHM_RSASHA256: byte := 8
  const ALGORITHM_RSASHA512: byte := 10
  const ALGORITHM_ECDSAP256SHA256: byte := 13
  const ALGORITHM_ECDSAP384SHA384: byte := 14

  /** DS digest type numbers (IANA). */
  const DIGEST_SHA1: byte := 1
  const DIGEST_SHA256: byte := 2
  const DIGEST_SHA384: byte := 4

  /** The five implementations of the DNSSECAlgorithmer interface. */
  datatype Algorithmer = RsaSha1 | RsaSha256 | RsaSha512 | EcdsaP256Sha256 | EcdsaP384Sha384

  function AlgorithmNumber(a: Algorithmer): byte
  {
    match a
    case RsaSha1 => ALGORITHM_RSASHA1
    case RsaSha256 => ALGORITHM_RSASHA256
    case RsaSha512 => ALGORITHM_RSASHA512
    case EcdsaP256Sha256 => ALGORITHM_ECDSAP256SHA256
    case EcdsaP384Sha384 => ALGORITHM_ECDSAP384SHA384
  }

  predicate Supported(algo: byte)
  {
    algo == ALGORITHM_RSASHA1 || algo == ALGORITHM_RSASHA256 || algo == ALGORITHM_RSASHA512
    || algo == ALGORITHM_ECDSAP256SHA256 || algo == ALGORITHM_ECDSAP384SHA384
  }

  /**
   * DNSSECAlgorithmerFactory: the implementation of a supported algorithm
   * number; None where the source panics on any other number.
   */
  function DnssecAlgorithmerFactory(algo: byte): (r: Option<Algorithmer>)
    ensures r.Some? <==> Supported(algo)
    ensures r.Some? ==> AlgorithmNumber(r.value) == algo
  {
    if algo == ALGORITHM_RSASHA1 then Some(RsaSha1)
    else if algo == ALGORITHM_RSASHA256 then Some(RsaSha256)
    else if algo == ALGORITHM_RSASHA512 then Some(RsaSha512)
    else if algo == ALGORITHM_ECDSAP256SHA256 then Some(EcdsaP256Sha256)
    else if algo == ALGORITHM_ECDSAP384SHA384 then Some(EcdsaP384Sha384)
    else None
  }

  /** Every implementation is what the factory gives for its own number. */
  lemma FactoryInverse(a: Algorithmer)
    ensures DnssecAlgorithmerFactory(AlgorithmNumber(a)) == Some(a)
  {
  }

  datatype DigestAlgorithm = Sha1 | Sha256 | Sha384

  /** The digest lengths of SHA-1, SHA-256 and SHA-384 in bytes. */
  function DigestLength(h: DigestAlgorithm): nat
  {
    match h
    case Sha1 => 20
    case Sha256 => 32
    case Sha384 => 48
  }

  /** The digest switch of GenerateDS: None where the source panics. */
  function DigestAlgorithmOf(dType: byte): (h: Option<DigestAlgorithm>)
    ensures h.Some? <==> dType == DIGEST_SHA1 || dType == DIGEST_SHA256 || dType == DIGEST_SHA384
  {
    if dType == DIGEST_SHA1 then Some(Sha1)
    else if dType == DIGEST_SHA256 then Some(Sha256)
    else if dType == DIGEST_SHA384 then Some(Sha384)
    else None
  }

  // ---------------------------------------------------------------------
  // The cryptographic library
  // ---------------------------------------------------------------------

  datatype KeyPair = KeyPair(privateKey: seq<byte>, publicKey: seq<byte>)

  /**
   * GenerateKey of an algorithm on a given draw, Sign (None when the
   * library reports an error), the message digests, and the random bytes
   * of a given draw.
   */
  datatype Crypto = Crypto(
    generateKey: (Algorithmer, nat) -> KeyPair,
    sign: (Algorithmer, seq<byte>, seq<byte>) -> Option<seq<byte>>,
    digest: (DigestAlgorithm, seq<byte>) -> seq<byte>,
    randomBytes: (nat, nat) -> seq<byte>)

  /** The library keeps its length promises: digests of the standard lengths, and as many random bytes as asked for. */
  ghost predicate Standard(c: Crypto)
  {
    && (forall h, m :: |c.digest(h, m)| == DigestLength(h))
    && (forall d, n: nat :: |c.randomBytes(d, n)| == n)
  }

  /** The panics of the builders and responders, as values. */
  datatype Fault =
    | UnsupportedAlgorithm
    | UnsupportedDigest
    | SigningFailed
    | EmptyRecordSet
    | MissingZoneKey
    | NoKeyFound      // the bounded key search ran out of draws
    | NoQuestion      // a query without a question section
    | EmptyName       // an empty owner name reaches the name encoder

  // ---------------------------------------------------------------------
  // Key tag (Appendix B of RFC 4034)
  // ---------------------------------------------------------------------

  /** Byte `i` as the loop of CalculateKeyTag adds it: odd positions as they are, even positions shifted left by 8. */
  function Weighted(b: seq<byte>, i: nat): nat
    requires i < |b|
  {
    if i % 2 == 1 then b[i] else b[i] as int * 0x100
  }

  /** What the loop has added after `n` bytes, before any 32-bit wrap-around. */
  function PrefixSum(b: seq<byte>, n: nat): nat
    requires n <= |b|
  {
    if n == 0 then 0 else PrefixSum(b, n - 1) + Weighted(b, n - 1)
  }

  /**
   * The reference reading of Appendix B of RFC 4034: the sum of the data
   * taken as big-endian 16-bit words, an odd last byte being the high byte
   * of a word whose low byte is zero.
   */
  function WordSum(b: seq<byte>): nat
  {
    if |b| == 0 then 0
    else if |b| == 1 then b[0] as int * 0x100
    else b[0] as int * 0x100 + b[1] + WordSum(b[2..])
  }

  /** The key tag of DNSKEY RDATA: the 32-bit sum, its high half added once, then the low 16 bits. */
  function KeyTag(rdata: seq<byte>): (tag: u16)
  {
    var ac := U32(WordSum(rdata));
    U32(ac + (ac / 0x1_0000) % 0x1_0000) % 0x1_0000
  }

  lemma {:induction false} PrefixSumShift(b: seq<byte>, n: nat)
    requires 2 <= n <= |b|
    ensures PrefixSum(b, n) == b[0] as int * 0x100 + b[1] + PrefixSum(b[2..], n - 2)
  {
    if n > 2 {
      PrefixSumShift(b, n - 1);
      assert Weighted(b, n - 1) == Weighted(b[2..], n - 3);
      assert PrefixSum(b[2..], n - 2) == PrefixSum(b[2..], n - 3) + Weighted(b[2..], n - 3);
    } else {
      assert PrefixSum(b, 1) == Weighted(b, 0);
      assert PrefixSum(b[2..], 0) == 0;
    }
  }

  /** The loop's positional sum is the sum of words. */
  lemma {:induction false} PrefixSumIsWordSum(b: seq<byte>)
    ensures PrefixSum(b, |b|) == WordSum(b)
    decreases |b|
  {
    if |b| >= 2 {
      PrefixSumShift(b, |b|);
      PrefixSumIsWordSum(b[2..]);
    }
  }

  lemma WrapAdd(a: nat, x: nat)
    ensures U32(U32(a) + x) == U32(a + x)
  {
  }

  /** CalculateKeyTag: the key tag of the key's RDATA wire form. */
  method CalculateKeyTag(key: Dnskey) returns (tag: u16)
    ensures tag == KeyTag(DnskeyWire(key))
  {
    var rdata := DnskeyWire(key);
    var ac: u32 := 0;
    var i: nat := 0;
    while i < |rdata|
      invariant i <= |rdata| && ac == U32(PrefixSum(rdata, i))
      decreases |rdata| - i
    {
      WrapAdd(PrefixSum(rdata, i), Weighted(rdata, i));
      if i % 2 == 1 {
        ac := U32(ac + rdata[i]);
      } else {
        ac := U32(ac + rdata[i] as int * 0x100);
      }
      i := i + 1;
    }
    PrefixSumIsWordSum(rdata);
    ac := U32(ac + (ac / 0x1_0000) % 0x1_0000);
    tag := ac % 0x1_0000;
  }

  lemma DropHighWord(t: int)
    requires 0x1_0000_0000 <= t < 0x2_0000_0000
    ensures U32(t) == t - 0x1_0000_0000
    ensures (t - 0x1_0000_0000) % 0x1_0000 == t % 0x1_0000
  {
    var q := t / 0x1_0000;
    var r := t % 0x1_0000;
    assert t - 0x1_0000_0000 == (q - 0x1_0000) * 0x1_0000 + r;
  }

  /** Folding the carry of a sum that fits in 32 bits. */
  lemma FoldOnce(s: nat)
    requires s < 0x1_0000_0000
    ensures U32(U32(s) + (U32(s) / 0x1_0000) % 0x1_0000) % 0x1_0000 == (s + s / 0x1_0000) % 0x1_0000
  {
    assert U32(s) == s;
    var carry := s / 0x1_0000;
    assert carry < 0x1_0000;
    var t := s + carry;
    if t >= 0x1_0000_0000 {
      DropHighWord(t);
    }
  }

  /** While the word sum fits in 32 bits, the tag is the sum with its carry added once, modulo 2^16. */
  lemma KeyTagOfSmallSum(rdata: seq<byte>)
    requires WordSum(rdata) < 0x1_0000_0000
    ensures KeyTag(rdata) == (WordSum(rdata) + WordSum(rdata) / 0x1_0000) % 0x1_0000
  {
    FoldOnce(WordSum(rdata));
  }

  /** A key-signing RSA/SHA-256 key (flags 257) with an empty public key: 0x0101 + 0x0308 = 1033. */
  lemma KeyTagExample()
    ensures DnskeyWire(Dnskey(FLAG_SECURE_ENTRY_POINT, DNSKEY_PROTOCOL, ALGORITHM_RSASHA256, [])) == [1, 1, 3, 8]
    ensures KeyTag([1, 1, 3, 8]) == 1033
  {
    var b: seq<byte> := [1, 1, 3, 8];
    assert b[2..] == [3, 8];
    assert b[2..][2..] == [];
    assert WordSum(b) == 0x0101 + 0x0308;
  }

  // ---------------------------------------------------------------------
  // DNSKEY
  // ---------------------------------------------------------------------

  /**
   * GenerateDNSKEY: a fresh key pair of the algorithm; the DNSKEY carries
   * the flags asked for, protocol 3, the algorithm and the public key, and
   * the private key is returned beside it.
   */
  function GenerateDnskey(c: Crypto, algo: byte, flag: u16, draw: nat): (r: Result<(Dnskey, seq<byte>), Fault>)
    ensures r.Success? <==> Supported(algo)
    ensures r.Success? ==>
      var (key, privateKey) := r.value;
      && key.flags == flag && key.protocol == DNSKEY_PROTOCOL && key.algorithm == algo
      && c.generateKey(DnssecAlgorithmerFactory(algo).value, draw) == KeyPair(privateKey, key.publicKey)
  {
    match DnssecAlgorithmerFactory(algo)
    case None => Failure(UnsupportedAlgorithm)
    case Some(a) =>
      var pair := c.generateKey(a, draw);
      Success((Dnskey(flag, DNSKEY_PROTOCOL, algo, pair.publicKey), pair.privateKey))
  }

  /** The DNSKEY RDATA GenKeyWithTag builds from the key pair of draw `d`. */
  function DrawnKey(c: Crypto, a: Algorithmer, algo: byte, flag: u16, d: nat): (k: Dnskey)
    ensures k.flags == flag && k.protocol == DNSKEY_PROTOCOL && k.algorithm == algo
  {
    Dnskey(flag, DNSKEY_PROTOCOL, algo, c.generateKey(a, d).publicKey)
  }

  /**
   * GenKeyWithTag: generates keys until one has the key tag asked for, and
   * returns the first such key. The source retries without end; here at
   * most `attempts` draws are made, from `draw` on, and `next` is the first
   * draw not used.
   */
  method GenKeyWithTag(c: Crypto, algo: byte, flag: u16, tag: int, draw: nat, attempts: nat)
    returns (r: Result<Dnskey, Fault>, next: nat)
    ensures r.Success? ==>
      && KeyTag(DnskeyWire(r.value)) == tag
      && r.value.flags == flag && r.value.protocol == DNSKEY_PROTOCOL && r.value.algorithm == algo
    ensures !Supported(algo) ==> r == Failure(UnsupportedAlgorithm) && next == draw
    ensures Supported(algo) ==>
      var a := DnssecAlgorithmerFactory(algo).value;
      && draw <= next <= draw + attempts
      && (r.Success? ==> draw < next && r.value == DrawnKey(c, a, algo, flag, next - 1))
      && (r.Failure? ==> r == Failure(NoKeyFound) && next == draw + attempts)
      && (forall d :: draw <= d < next - 1 ==> KeyTag(DnskeyWire(DrawnKey(c, a, algo, flag, d))) != tag)
      && (r.Failure? ==> forall d :: draw <= d < next ==> KeyTag(DnskeyWire(DrawnKey(c, a, algo, flag, d))) != tag)
  {
    next := draw;
    var algorithmer := DnssecAlgorithmerFactory(algo);
    if algorithmer.None? {
      return Failure(UnsupportedAlgorithm), next;
    }
    while next < draw + attempts
      invariant draw <= next <= draw + attempts
      invariant forall d :: draw <= d < next ==> KeyTag(DnskeyWire(DrawnKey(c, algorithmer.value, algo, flag, d))) != tag
      decreases draw + attempts - next
    {
      var pair := c.generateKey(algorithmer.value, next);
      var pKey := Dnskey(flag, DNSKEY_PROTOCOL, algo, pair.publicKey);
      var rTag := CalculateKeyTag(pKey);
      next := next + 1;
      if rTag as int == tag {
        return Success(pKey), next;
      }
    }
    r := Failure(NoKeyFound);
  }

  // ---------------------------------------------------------------------
  // RRSIG
  // ---------------------------------------------------------------------

  /** The RRSIG RDATA before signing: the fields GenerateRRSIG fills in, with an empty signature. */
  function UnsignedRrsig(rrSet: seq<ResourceRecord>, algo: byte, expiration: u32, inception: u32,
                         keyTag: u16, signerName: seq<byte>): (r: Rrsig)
    requires |rrSet| > 0 && |rrSet[0].name| > 0
    ensures r.typeCovered == rrSet[0].rrType && r.originalTtl == rrSet[0].ttl
    ensures r.labels == Byte(CountDomainNameLabels(rrSet[0].name))
    ensures r.signerName == signerName && r.signature == []
    ensures |signerName| > 0 ==> |RrsigWire(r)| >= 18 && RrsigWire(r)[18..] == NameWire(signerName)
  {
    Rrsig(rrSet[0].rrType, algo, Byte(CountDomainNameLabels(rrSet[0].name)), rrSet[0].ttl,
          expiration, inception, keyTag, signerName, [])
  }

  /** Section 3.1.8.1 of RFC 4034: the data signed is the RRSIG RDATA without its signature, then the records. */
  function SigningInput(rrsig: Rrsig, rrSet: seq<ResourceRecord>): (data: seq<byte>)
    requires |rrsig.signerName| > 0 && AllNamed(rrSet)
  {
    RrsigWire(rrsig) + RecordsWire(rrSet)
  }

  /** What GenerateRRSIG returns, or the panic it ends in. */
  function RrsigOver(c: Crypto, rrSet: seq<ResourceRecord>, algo: byte, expiration: u32, inception: u32,
                     keyTag: u16, signerName: seq<byte>, privateKey: seq<byte>): (r: Result<Rrsig, Fault>)
    requires |signerName| > 0 && AllNamed(rrSet)
    ensures |rrSet| == 0 ==> r == Failure(EmptyRecordSet)
    ensures |rrSet| > 0 && !Supported(algo) ==> r == Failure(UnsupportedAlgorithm)
    ensures r.Success? ==>
      && r.value.typeCovered == rrSet[0].rrType && r.value.originalTtl == rrSet[0].ttl
      && r.value.labels == Byte(CountDomainNameLabels(rrSet[0].name))
      && r.value.algorithm == algo && r.value.expiration == expiration && r.value.inception == inception
      && r.value.keyTag == keyTag && r.value.signerName == signerName
  {
    if |rrSet| == 0 then Failure(EmptyRecordSet)
    else
      var rrsig := UnsignedRrsig(rrSet, algo, expiration, inception, keyTag, signerName);
      match DnssecAlgorithmerFactory(algo)
      case None => Failure(UnsupportedAlgorithm)
      case Some(a) =>
        match c.sign(a, SigningInput(rrsig, rrSet), privateKey)
        case None => Failure(SigningFailed)
        case Some(signature) => Success(rrsig.(signature := signature))
  }

  /** The signing input is as long as the unsigned RRSIG RDATA and the records together. */
  lemma SigningInputLength(rrsig: Rrsig, rrSet: seq<ResourceRecord>)
    requires |rrsig.signerName| > 0 && AllNamed(rrSet)
    ensures |SigningInput(rrsig, rrSet)| == RrsigSize(rrsig) + |RecordsWire(rrSet)|
  {
  }

  /**
   * A validator rebuilds the signed data from the returned RRSIG with its
   * signature removed and the same records, and the signature is the
   * signing key's signature over exactly that data.
   */
  lemma SignatureCoversRecords(c: Crypto, rrSet: seq<ResourceRecord>, algo: byte, expiration: u32, inception: u32,
                               keyTag: u16, signerName: seq<byte>, privateKey: seq<byte>)
    requires |signerName| > 0 && AllNamed(rrSet)
    requires RrsigOver(c, rrSet, algo, expiration, inception, keyTag, signerName, privateKey).Success?
    ensures var r := RrsigOver(c, rrSet, algo, expiration, inception, keyTag, signerName, privateKey).value;
      && Supported(algo)
      && c.sign(DnssecAlgorithmerFactory(algo).value, SigningInput(r.(signature := []), rrSet), privateKey)
         == Some(r.signature)
  {
  }

  /** The length GenerateRRSIG computes for its buffer: the unsigned RRSIG RDATA and every record. */
  method PlainLength(rrsig: Rrsig, rrSet: seq<ResourceRecord>) returns (plainLen: nat)
    requires |rrsig.signerName| > 0 && AllNamed(rrSet)
    ensures plainLen == RrsigSize(rrsig) + |RecordsWire(rrSet)|
  {
    plainLen := RrsigSize(rrsig);
    var i: nat := 0;
    while i < |rrSet|
      invariant i <= |rrSet| && plainLen == RrsigSize(rrsig) + SizeSum(rrSet, i)
      decreases |rrSet| - i
    {
      plainLen := plainLen + RecordSize(rrSet[i]);
      i := i + 1;
    }
    RecordsWireLength(rrSet);
  }

  /**
   * The first half of GenerateRRSIG: the signing input is assembled in a
   * buffer of exactly the computed length. The source's panic on an
   * offset that does not come out at the buffer's length cannot happen.
   */
  method AssemblePlainText(rrsig: Rrsig, rrSet: seq<ResourceRecord>) returns (plainText: seq<byte>)
    requires |rrsig.signerName| > 0 && AllNamed(rrSet)
    ensures plainText == SigningInput(rrsig, rrSet)
  {
    var plainLen := PlainLength(rrsig, rrSet);
    var buffer := new byte[plainLen];
    var head := RrsigWire(rrsig);
    ghost var target := SigningInput(rrsig, rrSet);
    var written := EncodeToBuffer(head, buffer, 0);
    assert Filled(buffer[..], target, |head|) by {
      assert buffer[..|head|] == head == target[..|head|];
    }
    var offset := EncodeAll(Wires(rrSet), buffer, target, head, written);
    assert offset == plainLen;
    plainText := buffer[..];
    assert plainText == plainText[..offset];
  }

  /** GenerateRRSIG: the record set signed under the RRSIG fields it is given. */
  method GenerateRrsig(c: Crypto, rrSet: seq<ResourceRecord>, algo: byte, expiration: u32, inception: u32,
                       keyTag: u16, signerName: seq<byte>, privateKey: seq<byte>) returns (r: Result<Rrsig, Fault>)
    requires |signerName| > 0 && AllNamed(rrSet)
    ensures r == RrsigOver(c, rrSet, algo, expiration, inception, keyTag, signerName, privateKey)
  {
    if |rrSet| == 0 {
      return Failure(EmptyRecordSet);
    }
    var rrsig := UnsignedRrsig(rrSet, algo, expiration, inception, keyTag, signerName);
    var plainText := AssemblePlainText(rrsig, rrSet);
    var algorithmer := DnssecAlgorithmerFactory(algo);
    if algorithmer.None? {
      return Failure(UnsupportedAlgorithm);
    }
    var signature := c.sign(algorithmer.value, plainText, privateKey);
    if signature.None? {
      return Failure(SigningFailed);
    }
    r := Success(rrsig.(signature := signature.value));
  }

  /** The ASCII bytes of "random plaintext". */
  const RANDOM_PLAINTEXT: seq<byte> := [114, 97, 110, 100, 111, 109, 32, 112, 108, 97, 105, 110, 116, 101, 120, 116]

  /**
   * GenRandomRRSIG: the fields of GenerateRRSIG, but an original TTL of
   * 3600 and, as signature, random bytes as long as a signature of the
   * algorithm over a fixed text.
   */
  function GenRandomRrsig(c: Crypto, rrSet: seq<ResourceRecord>, algo: byte, expiration: u32, inception: u32,
                          keyTag: u16, signerName: seq<byte>, draw: nat): (r: Result<Rrsig, Fault>)
    requires |rrSet| > 0 ==> |rrSet[0].name| > 0
    ensures !Supported(algo) ==> r == Failure(UnsupportedAlgorithm)
    ensures r.Success? ==> |rrSet| > 0 && r.value.originalTtl == 3600
    ensures r.Success? && Standard(c) ==>
      Some(|r.value.signature|) == SignatureLength(c.sign(DnssecAlgorithmerFactory(algo).value,
        RANDOM_PLAINTEXT, c.generateKey(DnssecAlgorithmerFactory(algo).value, draw).privateKey))
  {
    match DnssecAlgorithmerFactory(algo)
    case None => Failure(UnsupportedAlgorithm)
    case Some(a) =>
      var privateKey := c.generateKey(a, draw).privateKey;
      match c.sign(a, RANDOM_PLAINTEXT, privateKey)
      case None => Failure(SigningFailed)
      case Some(sig) =>
        if |rrSet| == 0 then Failure(EmptyRecordSet)
        else
          var unsigned := UnsignedRrsig(rrSet, algo, expiration, inception, keyTag, signerName);
          Success(unsigned.(originalTtl := 3600, signature := c.randomBytes(draw, |sig|)))
  }

  /** The length of a signature, if there is one. */
  function SignatureLength(sig: Option<seq<byte>>): Option<nat>
  {
    match sig
    case Some(s) => Some(|s|)
    case None => None
  }

  /** GenRandomRRSIG and GenerateRRSIG agree on every field but the original TTL and the signature. */
  lemma RandomRrsigMatchesGenerated(c: Crypto, rrSet: seq<ResourceRecord>, algo: byte, expiration: u32, inception: u32,
                                    keyTag: u16, signerName: seq<byte>, privateKey: seq<byte>, draw: nat)
    requires |signerName| > 0 && AllNamed(rrSet)
    requires RrsigOver(c, rrSet, algo, expiration, inception, keyTag, signerName, privateKey).Success?
    requires GenRandomRrsig(c, rrSet, algo, expiration, inception, keyTag, signerName, draw).Success?
    ensures var g := RrsigOver(c, rrSet, algo, expiration, inception, keyTag, signerName, privateKey).value;
      var x := GenRandomRrsig(c, rrSet, algo, expiration, inception, keyTag, signerName, draw).value;
      x == g.(originalTtl := 3600, signature := x.signature)
  {
  }

  // ---------------------------------------------------------------------
  // DS
  // ---------------------------------------------------------------------

  /** Section 5.1.4 of RFC 4034: the digest covers the owner name's wire form, then the DNSKEY RDATA. */
  function DigestInput(ownerName: seq<byte>, key: Dnskey): (data: seq<byte>)
    requires |ownerName| > 0
    ensures |data| == GetDomainNameWireLen(ownerName) + DnskeySize(key)
  {
    NameWire(ownerName) + DnskeyWire(key)
  }

  /** What GenerateDS returns, or the panic it ends in. */
  function DsOf(c: Crypto, ownerName: seq<byte>, key: Dnskey, dType: byte): (r: Result<Ds, Fault>)
    requires |ownerName| > 0
    ensures r.Success? <==> dType == DIGEST_SHA1 || dType == DIGEST_SHA256 || dType == DIGEST_SHA384
    ensures r.Success? ==>
      && r.value.keyTag == KeyTag(DnskeyWire(key)) && r.value.algorithm == key.algorithm
      && r.value.digestType == dType
      && (Standard(c) ==> |r.value.digest| == DigestLength(DigestAlgorithmOf(dType).value))
  {
    match DigestAlgorithmOf(dType)
    case None => Failure(UnsupportedDigest)
    case Some(h) => Success(Ds(KeyTag(DnskeyWire(key)), key.algorithm, dType, c.digest(h, DigestInput(ownerName, key))))
  }

  /** The buffer of GenerateDS: the owner name, then the DNSKEY RDATA, in a zeroed buffer of exactly that length. */
  method DigestPlainText(ownerName: seq<byte>, key: Dnskey) returns (plainText: seq<byte>)
    requires |ownerName| > 0
    ensures plainText == DigestInput(ownerName, key)
  {
    var nameLen := GetDomainNameWireLen(ownerName);
    var pText := new byte[nameLen + DnskeySize(key)](_ => 0);
    ghost var target := DigestInput(ownerName, key);
    var offset := PutOwnerName(ownerName, pText, target);
    offset := EncodeNext(DnskeyWire(key), pText, target, offset);
    plainText := pText[..];
    assert plainText == plainText[..offset];
  }

  /** The owner name at the head of a zeroed buffer; the buffer's own zero ends the name. */
  method PutOwnerName(ownerName: seq<byte>, buffer: array<byte>, ghost target: seq<byte>) returns (offset: nat)
    requires |ownerName| > 0 && GetDomainNameWireLen(ownerName) <= buffer.Length == |target|
    requires forall k :: 0 <= k < buffer.Length ==> buffer[k] == 0
    requires target[..GetDomainNameWireLen(ownerName)] == NameWire(ownerName)
    modifies buffer
    ensures Filled(buffer[..], target, offset) && offset == GetDomainNameWireLen(ownerName)
  {
    ghost var zeroed := buffer[..];
    var n := EncodeDomainNameToBuffer(ownerName, buffer);
    offset := n;
    ZeroedBufferHoldsWire(ownerName, zeroed, buffer[..], offset);
  }

  /** GenerateDS: the key's tag and algorithm, the digest type, and the digest of the owner name and key. */
  method GenerateDs(c: Crypto, ownerName: seq<byte>, key: Dnskey, dType: byte) returns (r: Result<Ds, Fault>)
    requires |ownerName| > 0
    ensures r == DsOf(c, ownerName, key, dType)
  {
    var keyTag := CalculateKeyTag(key);
    var pText := DigestPlainText(ownerName, key);
    var h := DigestAlgorithmOf(dType);
    if h.None? {
      return Failure(UnsupportedDigest);
    }
    var digest := c.digest(h.value, pText);
    r := Success(Ds(keyTag, key.algorithm, dType, digest));
  }
}
