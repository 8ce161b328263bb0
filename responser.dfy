/**
 * The responders of responser.go: the "dull" responder that answers every
 * query with the server's own address, the stateful responder that counts
 * each client's queries, and the DNSSEC responder, which keeps per-zone
 * key material in a cache that grows on first sight of a zone and answers
 * DNSKEY, DS and address queries with signed records.
 *
 * Key generation, signing and digests are the `Crypto` oracle of the
 * Dnssec module; the clock is the `now` parameter (seconds since the Unix
 * epoch); a Go panic is a `Failure`. Client addresses are keyed by their
 * bytes rather than by their textual form.
 */
module Responders {
  import opened Octets
  import opened DomainNames
  import opened Records
  import opened Dnssec

  /** The standard query opcode. */
  const OPCODE_QUERY: byte := 0

  /** The TTL of the dull responder's address record. */
  const DULL_TTL: u32 := 3600

  /** The TTL of every record the DNSSEC responder builds. */
  const ZONE_TTL: u32 := 86400

  /** Signatures are valid from an hour in the past to a day after that. */
  const SIGNATURE_LIFETIME: int := 86400
  const CLOCK_SKEW: int := 3600

  // ---------------------------------------------------------------------
  // Queries and responses
  // ---------------------------------------------------------------------

  /** A query as the transport delivers it: the sender's link and network addresses, its port, the message. */
  datatype QueryInfo = QueryInfo(mac: seq<byte>, ip: seq<byte>, port: int, dns: Message)

  /** A response as handed back to the transport: where it goes, and the message. */
  datatype ResponseInfo = ResponseInfo(mac: seq<byte>, ip: seq<byte>, port: int, dns: Message)

  /**
   * `r` answers `q`: it goes back where `q` came from, keeps its
   * transaction id, question count and question section, and counts the
   * records in its answer section.
   */
  predicate Answers(q: QueryInfo, r: ResponseInfo)
  {
    && r.mac == q.mac && r.ip == q.ip && r.port == q.port
    && r.dns.header.id == q.dns.header.id && r.dns.header.qdCount == q.dns.header.qdCount
    && r.dns.question == q.dns.question
    && r.dns.header.anCount as int == |r.dns.answer|
  }

  /**
   * InitResp: the default response, addressed back to the sender, with
   * the query's id, question count and questions and empty record
   * sections; every other header field is the default's.
   */
  function InitResp(defaultResp: ResponseInfo, q: QueryInfo): (r: ResponseInfo)
    ensures r.mac == q.mac && r.ip == q.ip && r.port == q.port
    ensures r.dns.header.id == q.dns.header.id && r.dns.header.qdCount == q.dns.header.qdCount
    ensures r.dns.header.(id := defaultResp.dns.header.id, qdCount := defaultResp.dns.header.qdCount)
            == defaultResp.dns.header
    ensures r.dns.question == q.dns.question
    ensures r.dns.answer == [] && r.dns.authority == [] && r.dns.additional == []
  {
    var header := defaultResp.dns.header.(id := q.dns.header.id, qdCount := q.dns.header.qdCount);
    ResponseInfo(q.mac, q.ip, q.port, Message(header, q.dns.question, [], [], []))
  }

  /**
   * The answer count is copied from the default response, so the initial
   * response answers the query exactly when the default counts no answers.
   */
  lemma InitRespAnswers(defaultResp: ResponseInfo, q: QueryInfo)
    ensures Answers(q, InitResp(defaultResp, q)) <==> defaultResp.dns.header.anCount == 0
  {
    var r := InitResp(defaultResp, q);
    assert r.dns.header.anCount == defaultResp.dns.header.anCount;
  }

  // ---------------------------------------------------------------------
  // DullResponser
  // ---------------------------------------------------------------------

  /**
   * DullResponser.Response: an authoritative answer with one address
   * record for the question's name, type and class, pointing at the
   * server. The source indexes the first question, so a query without
   * questions ends in a panic.
   */
  function DullResponse(serverIp: IPv4, q: QueryInfo): (r: Result<ResponseInfo, Fault>)
    ensures r.Failure? <==> |q.dns.question| == 0
    ensures r.Success? ==>
      var h := r.value.dns.header;
      && Answers(q, r.value)
      && h.qr && h.opCode == OPCODE_QUERY && h.aa && !h.tc && !h.rd && !h.ra && h.z == 0
      && h.rCode == RCODE_NO_ERROR && h.nsCount == 0 && h.arCount == 0
      && r.value.dns.authority == [] && r.value.dns.additional == []
      && |r.value.dns.answer| == 1
      && var a := r.value.dns.answer[0];
         && a.name == q.dns.question[0].name && a.rrType == q.dns.question[0].qType
         && a.rrClass == q.dns.question[0].qClass && a.ttl == DULL_TTL && a.rdLen == 0
         && a.rdata == A(serverIp)
  {
    if |q.dns.question| == 0 then Failure(NoQuestion)
    else
      var question := q.dns.question[0];
      var header := Header(q.dns.header.id, true, OPCODE_QUERY, true, false, false, false, 0,
                           RCODE_NO_ERROR, q.dns.header.qdCount, 1, 0, 0);
      var answer := ResourceRecord(question.name, question.qType, question.qClass, DULL_TTL, 0, A(serverIp));
      Success(ResponseInfo(q.mac, q.ip, q.port, Message(header, q.dns.question, [answer], [], [])))
  }

  // ---------------------------------------------------------------------
  // StatefulResponser
  // ---------------------------------------------------------------------

  /** What the stateful responder remembers of a client. */
  datatype ClientInfo = ClientInfo(queryTimes: int, queryList: seq<QueryInfo>)

  /**
   * A client's entry after one more query: a new client is counted once
   * with nothing recorded; a known one is counted again and the query is
   * appended.
   */
  function Registered(clients: map<seq<byte>, ClientInfo>, q: QueryInfo): (info: ClientInfo)
    ensures q.ip !in clients ==> info == ClientInfo(1, [])
    ensures q.ip in clients ==>
      && info.queryTimes == clients[q.ip].queryTimes + 1
      && info.queryList == clients[q.ip].queryList + [q]
  {
    if q.ip !in clients then ClientInfo(1, [])
    else ClientInfo(clients[q.ip].queryTimes + 1, clients[q.ip].queryList + [q])
  }

  /** Every client was counted once more than it has recorded queries. */
  predicate Counted(clients: map<seq<byte>, ClientInfo>)
  {
    forall ip :: ip in clients ==> clients[ip].queryTimes == |clients[ip].queryList| + 1
  }

  lemma RegisterKeepsCount(clients: map<seq<byte>, ClientInfo>, q: QueryInfo)
    requires Counted(clients)
    ensures Counted(clients[q.ip := Registered(clients, q)])
  {
    var clients' := clients[q.ip := Registered(clients, q)];
    forall ip | ip in clients'
      ensures clients'[ip].queryTimes == |clients'[ip].queryList| + 1
    {
      if ip == q.ip && q.ip in clients {
        assert clients'[ip].queryList == clients[ip].queryList + [q];
      }
    }
  }

  /** The clients' entries after the queries `qs`, one after the other. */
  function RegisterAll(clients: map<seq<byte>, ClientInfo>, qs: seq<QueryInfo>): map<seq<byte>, ClientInfo>
    decreases |qs|
  {
    if |qs| == 0 then clients
    else
      var last := qs[|qs| - 1];
      var before := RegisterAll(clients, qs[..|qs| - 1]);
      before[last.ip := Registered(before, last)]
  }

  /**
   * A new client that sends `qs` is counted |qs| times and has recorded
   * every query but its first.
   */
  lemma {:induction false} FirstQueryNotRecorded(clients: map<seq<byte>, ClientInfo>, qs: seq<QueryInfo>, ip: seq<byte>)
    requires ip !in clients && |qs| > 0
    requires forall i :: 0 <= i < |qs| ==> qs[i].ip == ip
    ensures ip in RegisterAll(clients, qs) && RegisterAll(clients, qs)[ip] == ClientInfo(|qs|, qs[1..])
    decreases |qs|
  {
    var front := qs[..|qs| - 1];
    if |front| == 0 {
      assert RegisterAll(clients, front) == clients;
    } else {
      FirstQueryNotRecorded(clients, front, ip);
      assert front[1..] + [qs[|qs| - 1]] == qs[1..];
    }
  }

  /** Queries from other addresses leave a client's entry alone. */
  lemma {:induction false} OtherClientsUntouched(clients: map<seq<byte>, ClientInfo>, qs: seq<QueryInfo>, ip: seq<byte>)
    requires forall i :: 0 <= i < |qs| ==> qs[i].ip != ip
    ensures (ip in RegisterAll(clients, qs) <==> ip in clients)
    ensures ip in clients ==> RegisterAll(clients, qs)[ip] == clients[ip]
    decreases |qs|
  {
    if |qs| > 0 {
      OtherClientsUntouched(clients, qs[..|qs| - 1], ip);
    }
  }

  /** StatefulResponser: the default response and the per-client map. */
  class StatefulResponder {
    const defaultResp: ResponseInfo
    var clientMap: map<seq<byte>, ClientInfo>

    ghost predicate Valid()
      reads this
    {
      Counted(clientMap)
    }

    constructor (defaultResp: ResponseInfo)
      ensures Valid() && this.defaultResp == defaultResp && clientMap == map[]
    {
      this.defaultResp := defaultResp;
      clientMap := map[];
    }

    /** RegisterClient: the sender's entry is registered once more; no other entry changes. */
    method RegisterClient(q: QueryInfo)
      requires Valid()
      modifies this
      ensures Valid()
      ensures clientMap == old(clientMap)[q.ip := Registered(old(clientMap), q)]
    {
      RegisterKeepsCount(clientMap, q);
      var qIp := q.ip;
      if qIp !in clientMap {
        clientMap := clientMap[qIp := ClientInfo(1, [])];
      } else {
        var clientInfo := clientMap[qIp];
        clientInfo := clientInfo.(queryTimes := clientInfo.queryTimes + 1);
        clientInfo := clientInfo.(queryList := clientInfo.queryList + [q]);
        clientMap := clientMap[qIp := clientInfo];
      }
    }

    /** StatefulResponser.Response: register the sender, then answer with the initial response. */
    method Response(q: QueryInfo) returns (r: ResponseInfo)
      requires Valid()
      modifies this
      ensures Valid()
      ensures clientMap == old(clientMap)[q.ip := Registered(old(clientMap), q)]
      ensures r == InitResp(defaultResp, q)
    {
      RegisterClient(q);
      r := InitResp(defaultResp, q);
    }
  }

  // ---------------------------------------------------------------------
  // Zone names
  // ---------------------------------------------------------------------

  /**
   * GetUpperDomainName, which is not part of this model: the name after
   * its first label, or the root "." when nothing is left after it.
   */
  function UpperDomainName(name: seq<byte>): (parent: seq<byte>)
    ensures |parent| > 0
    ensures parent != [DOT] ==>
      var cut := |name| - |parent|;
      && 0 < cut && name[cut - 1] == DOT && name[cut..] == parent
      && forall k :: 0 <= k < cut - 1 ==> name[k] != DOT
  {
    RunLenFacts(name, 0);
    var first := RunLen(name, 0);
    if first + 1 >= |name| then [DOT] else name[first + 1..]
  }

  // ---------------------------------------------------------------------
  // DNSSECResponser: material and its construction
  // ---------------------------------------------------------------------

  /** The keys of one zone and its signed DNSKEY answer section. */
  datatype Material = Material(
    kskTag: int, zskTag: int, privateKsk: seq<byte>, privateZsk: seq<byte>, dnskeyRespSec: seq<ResourceRecord>)

  /** What a lookup of an absent zone yields: Go's zero value. */
  const NO_MATERIAL: Material := Material(0, 0, [], [], [])

  /** The signature validity window, both ends truncated to 32 bits. */
  function Expiration(now: int): u32 { U32(now + SIGNATURE_LIFETIME - CLOCK_SKEW) }
  function Inception(now: int): u32 { U32(now - CLOCK_SKEW) }

  /** A DNSKEY record of the zone. */
  function KeyRecord(zone: seq<byte>, key: Dnskey): (rr: ResourceRecord)
    ensures rr.name == zone && rr.rrType == TYPE_DNSKEY && rr.rrClass == CLASS_IN && rr.ttl == ZONE_TTL
    ensures rr.rdata == DnskeyData(key) && rr.rdLen == U16(DnskeySize(key))
  {
    ResourceRecord(zone, TYPE_DNSKEY, CLASS_IN, ZONE_TTL, U16(DnskeySize(key)), DnskeyData(key))
  }

  /** An RRSIG record owned by `owner`. */
  function SigRecord(owner: seq<byte>, sig: Rrsig): (rr: ResourceRecord)
    requires |sig.signerName| > 0
    ensures rr.name == owner && rr.rrType == TYPE_RRSIG && rr.rrClass == CLASS_IN && rr.ttl == ZONE_TTL
    ensures rr.rdata == RrsigData(sig) && rr.rdLen == U16(RrsigSize(sig))
  {
    ResourceRecord(owner, TYPE_RRSIG, CLASS_IN, ZONE_TTL, U16(RrsigSize(sig)), RrsigData(sig))
  }

  /** Material as CreateDNSSECMat lays it out for `zone`. */
  predicate ZoneMaterial(m: Material, zone: seq<byte>, algo: byte, now: int)
  {
    var s := m.dnskeyRespSec;
    && |zone| > 0 && |s| == 3
    && s[0].rdata.DnskeyData? && s[1].rdata.DnskeyData? && s[2].rdata.RrsigData?
    && s[0] == KeyRecord(zone, s[0].rdata.key) && s[1] == KeyRecord(zone, s[1].rdata.key)
    && |s[2].rdata.sig.signerName| > 0 && s[2] == SigRecord(zone, s[2].rdata.sig)
    && s[0].rdata.key.flags == FLAG_ZONE_KEY && s[1].rdata.key.flags == FLAG_SECURE_ENTRY_POINT
    && s[0].rdata.key.algorithm == algo && s[1].rdata.key.algorithm == algo
    && m.zskTag == KeyTag(DnskeyWire(s[0].rdata.key)) as int
    && m.kskTag == KeyTag(DnskeyWire(s[1].rdata.key)) as int
    && var sig := s[2].rdata.sig;
       && sig.typeCovered == TYPE_DNSKEY && sig.algorithm == algo && sig.originalTtl == ZONE_TTL
       && sig.keyTag as int == m.kskTag && sig.signerName == zone
       && sig.inception == Inception(now) && sig.expiration == Expiration(now)
  }

  /**
   * CreateDNSSECMat: a key-signing key (draw `draw`) and a zone-signing key
   * (draw `draw + 1`), their DNSKEY records, and the key set [ZSK, KSK]
   * signed with the key-signing key. An empty zone name ends in a panic
   * of the name encoder.
   */
  function CreateDnssecMat(c: Crypto, algo: byte, zone: seq<byte>, now: int, draw: nat): (r: Result<Material, Fault>)
    ensures |zone| == 0 ==> r == Failure(EmptyName)
    ensures |zone| > 0 && !Supported(algo) ==> r == Failure(UnsupportedAlgorithm)
  {
    if |zone| == 0 then Failure(EmptyName)
    else
      match GenerateDnskey(c, algo, FLAG_SECURE_ENTRY_POINT, draw)
      case Failure(e) => Failure(e)
      case Success((ksk, privateKsk)) =>
        match GenerateDnskey(c, algo, FLAG_ZONE_KEY, draw + 1)
        case Failure(e) => Failure(e)
        case Success((zsk, privateZsk)) =>
          SignedKeySet(c, algo, zone, now, ksk, privateKsk, zsk, privateZsk)
  }

  /** The key set [ZSK, KSK] signed with the key-signing key, and the material that holds both. */
  function SignedKeySet(c: Crypto, algo: byte, zone: seq<byte>, now: int,
                        ksk: Dnskey, privateKsk: seq<byte>, zsk: Dnskey, privateZsk: seq<byte>): (r: Result<Material, Fault>)
    requires |zone| > 0
    ensures !Supported(algo) ==> r == Failure(UnsupportedAlgorithm)
    ensures r.Success? ==>
      && r.value.privateKsk == privateKsk && r.value.privateZsk == privateZsk
      && |r.value.dnskeyRespSec| == 3 && r.value.dnskeyRespSec[..2] == [KeyRecord(zone, zsk), KeyRecord(zone, ksk)]
    ensures (&& r.Success? && ksk.flags == FLAG_SECURE_ENTRY_POINT && zsk.flags == FLAG_ZONE_KEY
             && ksk.algorithm == algo && zsk.algorithm == algo) ==> ZoneMaterial(r.value, zone, algo, now)
  {
    var kskTag := KeyTag(DnskeyWire(ksk));
    match RrsigOver(c, [KeyRecord(zone, zsk), KeyRecord(zone, ksk)], algo, Expiration(now), Inception(now), kskTag, zone, privateKsk)
    case Failure(e) => Failure(e)
    case Success(sig) =>
      Success(Material(kskTag as int, KeyTag(DnskeyWire(zsk)) as int, privateKsk, privateZsk,
                       [KeyRecord(zone, zsk), KeyRecord(zone, ksk), SigRecord(zone, sig)]))
  }

  /**
   * The material CreateDNSSECMat builds is laid out as ZoneMaterial says,
   * its key-signing key comes from draw `draw` and its zone-signing key
   * from draw `draw + 1`.
   */
  lemma MaterialLayout(c: Crypto, algo: byte, zone: seq<byte>, now: int, draw: nat)
    requires CreateDnssecMat(c, algo, zone, now, draw).Success?
    ensures var m := CreateDnssecMat(c, algo, zone, now, draw).value;
      && ZoneMaterial(m, zone, algo, now)
      && var a := DnssecAlgorithmerFactory(algo).value;
         && c.generateKey(a, draw) == KeyPair(m.privateKsk, m.dnskeyRespSec[1].rdata.key.publicKey)
         && c.generateKey(a, draw + 1) == KeyPair(m.privateZsk, m.dnskeyRespSec[0].rdata.key.publicKey)
  {
  }

  /**
   * The key set's signature is the key-signing key's signature over the
   * signed data a validator rebuilds from the first two records.
   */
  lemma KeySetSelfSigned(c: Crypto, algo: byte, zone: seq<byte>, now: int, draw: nat)
    requires CreateDnssecMat(c, algo, zone, now, draw).Success?
    ensures var m := CreateDnssecMat(c, algo, zone, now, draw).value;
      var keySet := m.dnskeyRespSec[..2];
      var sig := m.dnskeyRespSec[2].rdata.sig;
      && AllNamed(keySet)
      && c.sign(DnssecAlgorithmerFactory(algo).value, SigningInput(sig.(signature := []), keySet), m.privateKsk)
         == Some(sig.signature)
  {
    var (ksk, privateKsk) := GenerateDnskey(c, algo, FLAG_SECURE_ENTRY_POINT, draw).value;
    var (zsk, privateZsk) := GenerateDnskey(c, algo, FLAG_ZONE_KEY, draw + 1).value;
    KeySetCovered(c, algo, zone, now, ksk, privateKsk, zsk, privateZsk);
  }

  lemma KeySetCovered(c: Crypto, algo: byte, zone: seq<byte>, now: int,
                      ksk: Dnskey, privateKsk: seq<byte>, zsk: Dnskey, privateZsk: seq<byte>)
    requires |zone| > 0 && SignedKeySet(c, algo, zone, now, ksk, privateKsk, zsk, privateZsk).Success?
    ensures var m := SignedKeySet(c, algo, zone, now, ksk, privateKsk, zsk, privateZsk).value;
      var keySet := m.dnskeyRespSec[..2];
      var sig := m.dnskeyRespSec[2].rdata.sig;
      && AllNamed(keySet)
      && c.sign(DnssecAlgorithmerFactory(algo).value, SigningInput(sig.(signature := []), keySet), m.privateKsk)
         == Some(sig.signature)
  {
    var keySet := [KeyRecord(zone, zsk), KeyRecord(zone, ksk)];
    var m := SignedKeySet(c, algo, zone, now, ksk, privateKsk, zsk, privateZsk).value;
    assert m.dnskeyRespSec[..2] == keySet;
    SignatureCoversRecords(c, keySet, algo, Expiration(now), Inception(now), KeyTag(DnskeyWire(ksk)), zone, privateKsk);
  }

  // ---------------------------------------------------------------------
  // DNSSECResponser: dispatch
  // ---------------------------------------------------------------------

  /** The responder's configuration: the oracle, the server's address, the default response, the algorithm and digest type. */
  datatype Config = Config(c: Crypto, serverIp: IPv4, defaultResp: ResponseInfo, algo: byte, dType: byte)

  /** The responder's state: the zones' material, and the next randomness draw. */
  datatype Cache = Cache(zones: map<seq<byte>, Material>, draws: nat)

  /** `zone`'s material: the cached one, or fresh material, which the cache then keeps. */
  function Materialise(conf: Config, cache: Cache, zone: seq<byte>, now: int): (r: Result<(Cache, Material), Fault>)
    ensures zone in cache.zones ==> r == Success((cache, cache.zones[zone]))
    ensures r.Success? ==> r.value.0.zones == cache.zones[zone := r.value.1]
    ensures zone !in cache.zones && r.Success? ==>
      r.value.0.draws == cache.draws + 2 && CreateDnssecMat(conf.c, conf.algo, zone, now, cache.draws) == Success(r.value.1)
  {
    if zone in cache.zones then Success((cache, cache.zones[zone]))
    else
      match CreateDnssecMat(conf.c, conf.algo, zone, now, cache.draws)
      case Failure(e) => Failure(e)
      case Success(m) => Success((Cache(cache.zones[zone := m], cache.draws + 2), m))
  }

  /** The initial response with the given answer section, its count truncated to 16 bits, and NoError. */
  function Answered(conf: Config, q: QueryInfo, answer: seq<ResourceRecord>): (r: ResponseInfo)
    ensures r.mac == q.mac && r.ip == q.ip && r.port == q.port && r.dns.question == q.dns.question
    ensures r.dns.answer == answer && r.dns.authority == [] && r.dns.additional == []
    ensures r.dns.header == InitResp(conf.defaultResp, q).dns.header.(anCount := U16(|answer|), rCode := RCODE_NO_ERROR)
    ensures |answer| < 0x1_0000 ==> Answers(q, r)
  {
    var init := InitResp(conf.defaultResp, q);
    var header := init.dns.header.(anCount := U16(|answer|), rCode := RCODE_NO_ERROR);
    init.(dns := init.dns.(header := header, answer := answer))
  }

  /** The answer to a DNSKEY query: the zone's DNSKEY answer section, created and cached on first sight of the zone. */
  function KeyAnswer(conf: Config, cache: Cache, q: QueryInfo, qName: seq<byte>, now: int)
    : (out: (Result<ResponseInfo, Fault>, Cache))
    ensures qName in cache.zones ==> out == (Success(Answered(conf, q, cache.zones[qName].dnskeyRespSec)), cache)
    ensures out.0.Failure? ==> out.1 == cache
  {
    match Materialise(conf, cache, qName, now)
    case Failure(e) => (Failure(e), cache)
    case Success((cache', m)) => (Success(Answered(conf, q, m.dnskeyRespSec)), cache')
  }

  /** The record signing `rec`, made with `signer`'s zone-signing key. */
  function SignedBy(conf: Config, rec: ResourceRecord, signer: seq<byte>, m: Material, now: int): (r: Result<ResourceRecord, Fault>)
    requires Named(rec) && |signer| > 0
    ensures r.Success? ==>
      && r.value.name == rec.name && r.value.rrType == TYPE_RRSIG && r.value.rdata.RrsigData?
      && var sig := r.value.rdata.sig;
         && sig.typeCovered == rec.rrType && sig.signerName == signer && sig.keyTag == U16(m.zskTag)
         && sig.inception == Inception(now) && sig.expiration == Expiration(now)
  {
    match RrsigOver(conf.c, [rec], conf.algo, Expiration(now), Inception(now), U16(m.zskTag), signer, m.privateZsk)
    case Failure(e) => Failure(e)
    case Success(sig) => Success(SigRecord(rec.name, sig))
  }

  /**
   * The answer to a DS query: the DS record of the name's key-signing key,
   * which must already be cached, signed under the parent's zone-signing
   * key. The parent is looked up, never created.
   */
  function DsAnswer(conf: Config, zones: map<seq<byte>, Material>, q: QueryInfo, qName: seq<byte>, now: int)
    : (r: Result<ResponseInfo, Fault>)
    requires |qName| > 0
    ensures qName !in zones ==> r == Failure(MissingZoneKey)
  {
    if qName !in zones || |zones[qName].dnskeyRespSec| < 2 || !zones[qName].dnskeyRespSec[1].rdata.DnskeyData? then
      Failure(MissingZoneKey)
    else
      match DsOf(conf.c, qName, zones[qName].dnskeyRespSec[1].rdata.key, conf.dType)
      case Failure(e) => Failure(e)
      case Success(ds) =>
        var signer := UpperDomainName(qName);
        var rec := ResourceRecord(qName, TYPE_DS, CLASS_IN, ZONE_TTL, U16(DsSize(ds)), DsData(ds));
        var m := if signer in zones then zones[signer] else NO_MATERIAL;
        match SignedBy(conf, rec, signer, m, now)
        case Failure(e) => Failure(e)
        case Success(sigRec) => Success(Answered(conf, q, [rec, sigRec]))
  }

  /** The zone that signs the address record of `qName`: its parent, or itself under the root. */
  function AddressSigner(qName: seq<byte>): (signer: seq<byte>)
    requires |qName| > 0
    ensures |signer| > 0
    ensures signer == qName || signer == UpperDomainName(qName)
    ensures signer == qName <==> UpperDomainName(qName) == [DOT] || UpperDomainName(qName) == qName
  {
    var parent := UpperDomainName(qName);
    if parent == [DOT] then qName else parent
  }

  /** The answer to any other query: an address record for the server, signed by the signer zone, which is created if absent. */
  function AddressAnswer(conf: Config, cache: Cache, q: QueryInfo, qName: seq<byte>, now: int)
    : (out: (Result<ResponseInfo, Fault>, Cache))
    requires |qName| > 0
    ensures AddressSigner(qName) in cache.zones ==> out.1 == cache
    ensures out.0.Success? ==>
      |out.0.value.dns.answer| == 2 && out.0.value.dns.answer[0] == ResourceRecord(qName, TYPE_A, CLASS_IN, ZONE_TTL, 0, A(conf.serverIp))
  {
    var rec := ResourceRecord(qName, TYPE_A, CLASS_IN, ZONE_TTL, 0, A(conf.serverIp));
    var signer := AddressSigner(qName);
    match Materialise(conf, cache, signer, now)
    case Failure(e) => (Failure(e), cache)
    case Success((cache', m)) =>
      match SignedBy(conf, rec, signer, m, now)
      case Failure(e) => (Failure(e), cache')
      case Success(sigRec) => (Success(Answered(conf, q, [rec, sigRec])), cache')
  }

  /**
   * DNSSECResponser.Response, as a function of the cache: the response,
   * or the panic it ends in, and the cache afterwards.
   */
  function Dispatch(conf: Config, cache: Cache, q: QueryInfo, now: int): (out: (Result<ResponseInfo, Fault>, Cache))
    ensures |q.dns.question| == 0 ==> out == (Failure(NoQuestion), cache)
    ensures (&& |q.dns.question| > 0 && |q.dns.question[0].name| == 0
             && (q.dns.question[0].qType != TYPE_DNSKEY || [] !in cache.zones)) ==> out == (Failure(EmptyName), cache)
    ensures out.0.Success? ==>
      && out.0.value.dns.question == q.dns.question && out.0.value.dns.header.id == q.dns.header.id
      && out.0.value.dns.header.rCode == RCODE_NO_ERROR
  {
    if |q.dns.question| == 0 then (Failure(NoQuestion), cache)
    else
      var qType := q.dns.question[0].qType;
      var qName := q.dns.question[0].name;
      if qType == TYPE_DNSKEY then KeyAnswer(conf, cache, q, qName, now)
      else if |qName| == 0 then (Failure(EmptyName), cache)
      else if qType == TYPE_DS then (DsAnswer(conf, cache.zones, q, qName, now), cache)
      else AddressAnswer(conf, cache, q, qName, now)
  }

  // ---------------------------------------------------------------------
  // DNSSECResponser: what the cache and the answers promise
  // ---------------------------------------------------------------------

  /** The zone a query may add to the cache: the name of a DNSKEY query, the signer zone of any other. */
  function Touched(q: QueryInfo): seq<byte>
  {
    if |q.dns.question| == 0 || |q.dns.question[0].name| == 0 then []
    else if q.dns.question[0].qType == TYPE_DNSKEY then q.dns.question[0].name
    else AddressSigner(q.dns.question[0].name)
  }

  /** `c'` is `cache` with fresh material for `zone`, which was absent, made from the next two draws. */
  predicate AddsZone(conf: Config, cache: Cache, c': Cache, zone: seq<byte>, now: int)
  {
    && zone !in cache.zones && zone in c'.zones
    && c' == Cache(cache.zones[zone := c'.zones[zone]], cache.draws + 2)
    && CreateDnssecMat(conf.c, conf.algo, zone, now, cache.draws) == Success(c'.zones[zone])
  }

  lemma MaterialiseGrows(conf: Config, cache: Cache, zone: seq<byte>, now: int)
    ensures var r := Materialise(conf, cache, zone, now);
      r.Success? ==> r.value.0 == cache || AddsZone(conf, cache, r.value.0, zone, now)
  {
  }

  /** What a DNSKEY query does to the cache, and what it answers. */
  lemma KeyAnswerFacts(conf: Config, cache: Cache, q: QueryInfo, qName: seq<byte>, now: int)
    ensures var (r, c') := KeyAnswer(conf, cache, q, qName, now);
      && (c' == cache || AddsZone(conf, cache, c', qName, now))
      && (r.Success? ==> qName in c'.zones && r.value == Answered(conf, q, c'.zones[qName].dnskeyRespSec))
  {
    MaterialiseGrows(conf, cache, qName, now);
  }

  /** What any other query does to the cache, and that it answers with two records. */
  lemma AddressAnswerFacts(conf: Config, cache: Cache, q: QueryInfo, qName: seq<byte>, now: int)
    requires |qName| > 0
    ensures var (r, c') := AddressAnswer(conf, cache, q, qName, now);
      && (c' == cache || AddsZone(conf, cache, c', AddressSigner(qName), now))
      && (r.Success? ==> |r.value.dns.answer| == 2 && Answers(q, r.value))
  {
    var signer := AddressSigner(qName);
    MaterialiseGrows(conf, cache, signer, now);
    var (r, c') := AddressAnswer(conf, cache, q, qName, now);
    match Materialise(conf, cache, signer, now)
    case Failure(_) =>
      assert c' == cache;
    case Success((c1, m)) =>
      assert c' == c1;
      if r.Success? {
        var rec := ResourceRecord(qName, TYPE_A, CLASS_IN, ZONE_TTL, 0, A(conf.serverIp));
        assert r == Success(Answered(conf, q, [rec, SignedBy(conf, rec, signer, m, now).value]));
      }
  }

  lemma DsAnswerFacts(conf: Config, zones: map<seq<byte>, Material>, q: QueryInfo, qName: seq<byte>, now: int)
    requires |qName| > 0
    ensures var r := DsAnswer(conf, zones, q, qName, now);
      r.Success? ==> |r.value.dns.answer| == 2 && Answers(q, r.value)
  {
  }

  /**
   * A query leaves the cache as it was or adds fresh material for the zone
   * it touches; cached material is never replaced or removed.
   */
  lemma DispatchGrowsCache(conf: Config, cache: Cache, q: QueryInfo, now: int)
    ensures var c' := Dispatch(conf, cache, q, now).1;
      c' == cache || AddsZone(conf, cache, c', Touched(q), now)
  {
    if |q.dns.question| > 0 && |q.dns.question[0].name| > 0 {
      var qName := q.dns.question[0].name;
      if q.dns.question[0].qType == TYPE_DNSKEY {
        KeyAnswerFacts(conf, cache, q, qName, now);
      } else if q.dns.question[0].qType != TYPE_DS {
        AddressAnswerFacts(conf, cache, q, qName, now);
      }
    }
  }

  /** A DNSKEY query answers with the zone's cached key set; asking again gives the same answer and leaves the cache alone. */
  lemma RepeatedKeyQuery(conf: Config, cache: Cache, q1: QueryInfo, q2: QueryInfo, now1: int, now2: int)
    requires |q1.dns.question| > 0 && |q2.dns.question| > 0
    requires q1.dns.question[0].qType == TYPE_DNSKEY && q2.dns.question[0].qType == TYPE_DNSKEY
    requires q1.dns.question[0].name == q2.dns.question[0].name
    requires Dispatch(conf, cache, q1, now1).0.Success?
    ensures var (r1, c1) := Dispatch(conf, cache, q1, now1);
      var (r2, c2) := Dispatch(conf, c1, q2, now2);
      && q1.dns.question[0].name in c1.zones
      && r2.Success? && c2 == c1
      && r1.value.dns.answer == r2.value.dns.answer == c1.zones[q1.dns.question[0].name].dnskeyRespSec
  {
  }

  /** A DNSKEY query for the empty name is answered from the cache when that name is cached, as the Go branch encodes nothing. */
  lemma EmptyKeyNameFromCache(conf: Config, cache: Cache, q: QueryInfo, now: int)
    requires |q.dns.question| > 0 && q.dns.question[0].qType == TYPE_DNSKEY && q.dns.question[0].name == []
    requires [] in cache.zones
    ensures Dispatch(conf, cache, q, now) == (Success(Answered(conf, q, cache.zones[[]].dnskeyRespSec)), cache)
  {
  }

  /** A DS query only reads the cache; without material for the name itself it fails. */
  lemma DsQueryReadsOnly(conf: Config, cache: Cache, q: QueryInfo, now: int)
    requires |q.dns.question| > 0 && q.dns.question[0].qType == TYPE_DS
    ensures Dispatch(conf, cache, q, now).1 == cache
    ensures q.dns.question[0].name !in cache.zones ==> Dispatch(conf, cache, q, now).0.Failure?
  {
  }

  /**
   * The DS record served for a zone after its DNSKEY answer describes the
   * key-signing key in that answer: its tag, its algorithm, and the digest
   * of the zone's name and the key.
   */
  lemma DsDescribesServedKey(conf: Config, cache: Cache, q1: QueryInfo, q2: QueryInfo, now1: int, now2: int)
    requires |q1.dns.question| > 0 && |q2.dns.question| > 0
    requires q1.dns.question[0].qType == TYPE_DNSKEY && q2.dns.question[0].qType == TYPE_DS
    requires q1.dns.question[0].name == q2.dns.question[0].name
    requires Dispatch(conf, cache, q1, now1).0.Success?
    requires Dispatch(conf, Dispatch(conf, cache, q1, now1).1, q2, now2).0.Success?
    ensures var (r1, c1) := Dispatch(conf, cache, q1, now1);
      var r2 := Dispatch(conf, c1, q2, now2).0;
      var zone := q1.dns.question[0].name;
      && |zone| > 0
      && |r1.value.dns.answer| >= 2 && r1.value.dns.answer[1].rdata.DnskeyData?
      && |r2.value.dns.answer| == 2 && r2.value.dns.answer[0].rdata.DsData?
      && var ksk := r1.value.dns.answer[1].rdata.key;
         var ds := r2.value.dns.answer[0].rdata.ds;
         && DigestAlgorithmOf(conf.dType).Some?
         && ds.keyTag == KeyTag(DnskeyWire(ksk)) && ds.algorithm == ksk.algorithm && ds.digestType == conf.dType
         && ds.digest == conf.c.digest(DigestAlgorithmOf(conf.dType).value, DigestInput(zone, ksk))
  {
    var zone := q1.dns.question[0].name;
    var (r1, c1) := Dispatch(conf, cache, q1, now1);
    KeyAnswerFacts(conf, cache, q1, zone, now1);
    assert Dispatch(conf, c1, q2, now2).0 == DsAnswer(conf, c1.zones, q2, zone, now2);
    DsAnswerDescribes(conf, c1.zones, q2, zone, now2);
  }

  /** A DS answer's first record is the DS of the key in the second slot of the name's cached key set. */
  lemma DsAnswerDescribes(conf: Config, zones: map<seq<byte>, Material>, q: QueryInfo, qName: seq<byte>, now: int)
    requires |qName| > 0 && DsAnswer(conf, zones, q, qName, now).Success?
    ensures qName in zones && |zones[qName].dnskeyRespSec| >= 2 && zones[qName].dnskeyRespSec[1].rdata.DnskeyData?
    ensures var answer := DsAnswer(conf, zones, q, qName, now).value.dns.answer;
      && |answer| == 2 && answer[0].rdata.DsData?
      && var ksk := zones[qName].dnskeyRespSec[1].rdata.key;
         var ds := answer[0].rdata.ds;
         && DigestAlgorithmOf(conf.dType).Some?
         && ds.keyTag == KeyTag(DnskeyWire(ksk)) && ds.algorithm == ksk.algorithm && ds.digestType == conf.dType
         && ds.digest == conf.c.digest(DigestAlgorithmOf(conf.dType).value, DigestInput(qName, ksk))
  {
    var ksk := zones[qName].dnskeyRespSec[1].rdata.key;
    var ds := DsOf(conf.c, qName, ksk, conf.dType).value;
    assert DsAnswer(conf, zones, q, qName, now).value.dns.answer[0].rdata == DsData(ds);
  }

  /**
   * A DS query, answered, gets the DS record and its signature, made by the
   * parent zone with the parent's zone-signing key as the cache holds it;
   * a parent without cached material signs with tag 0 and an empty key.
   */
  lemma DsSignedByParent(conf: Config, cache: Cache, q: QueryInfo, now: int)
    requires |q.dns.question| > 0 && q.dns.question[0].qType == TYPE_DS
    requires Dispatch(conf, cache, q, now).0.Success?
    ensures var qName := q.dns.question[0].name;
      && |qName| > 0
      && DsSigned(conf, cache.zones, qName, Dispatch(conf, cache, q, now).0.value.dns.answer)
  {
    var qName := q.dns.question[0].name;
    assert |qName| > 0;
    assert Dispatch(conf, cache, q, now).0 == DsAnswer(conf, cache.zones, q, qName, now);
    DsAnswerSigned(conf, cache.zones, q, qName, now);
  }

  /** `answer` is a DS record for `qName` and its signature, made by the parent zone with the key `zones` holds for it. */
  predicate DsSigned(conf: Config, zones: map<seq<byte>, Material>, qName: seq<byte>, answer: seq<ResourceRecord>)
    requires |qName| > 0
  {
    var parent := UpperDomainName(qName);
    var m := if parent in zones then zones[parent] else NO_MATERIAL;
    && |answer| == 2
    && answer[0].name == qName && answer[0].rrType == TYPE_DS && answer[0].rdata.DsData?
    && answer[1].name == qName && answer[1].rrType == TYPE_RRSIG && answer[1].rdata.RrsigData?
    && var sig := answer[1].rdata.sig;
       && sig.typeCovered == TYPE_DS && sig.signerName == parent && sig.keyTag == U16(m.zskTag)
       && (parent !in zones ==> sig.keyTag == 0)
       && DnssecAlgorithmerFactory(conf.algo).Some? && Named(answer[0])
       && conf.c.sign(DnssecAlgorithmerFactory(conf.algo).value, SigningInput(sig.(signature := []), [answer[0]]),
                      m.privateZsk) == Some(sig.signature)
  }

  lemma DsAnswerSigned(conf: Config, zones: map<seq<byte>, Material>, q: QueryInfo, qName: seq<byte>, now: int)
    requires |qName| > 0 && DsAnswer(conf, zones, q, qName, now).Success?
    ensures DsSigned(conf, zones, qName, DsAnswer(conf, zones, q, qName, now).value.dns.answer)
  {
    var key := zones[qName].dnskeyRespSec[1].rdata.key;
    var ds := DsOf(conf.c, qName, key, conf.dType).value;
    var parent := UpperDomainName(qName);
    var rec := ResourceRecord(qName, TYPE_DS, CLASS_IN, ZONE_TTL, U16(DsSize(ds)), DsData(ds));
    var m := if parent in zones then zones[parent] else NO_MATERIAL;
    var sigRec := SignedBy(conf, rec, parent, m, now).value;
    assert DsAnswer(conf, zones, q, qName, now).value.dns.answer == [rec, sigRec];
    SignedDs(conf, zones, qName, rec, sigRec, now);
  }

  /** A DS record and the parent's signature of it make a signed DS answer. */
  lemma SignedDs(conf: Config, zones: map<seq<byte>, Material>, qName: seq<byte>, rec: ResourceRecord, sigRec: ResourceRecord, now: int)
    requires |qName| > 0 && rec.name == qName && rec.rrType == TYPE_DS && rec.rdata.DsData?
    requires var parent := UpperDomainName(qName);
      var m := if parent in zones then zones[parent] else NO_MATERIAL;
      SignedBy(conf, rec, parent, m, now) == Success(sigRec)
    ensures DsSigned(conf, zones, qName, [rec, sigRec])
  {
    var parent := UpperDomainName(qName);
    var m := if parent in zones then zones[parent] else NO_MATERIAL;
    SignatureCoversRecords(conf.c, [rec], conf.algo, Expiration(now), Inception(now), U16(m.zskTag), parent, m.privateZsk);
  }

  /**
   * Any other query, answered, gets an address record for the server and
   * its signature, made with the zone-signing key of the signer zone,
   * whose material the cache then holds.
   */
  lemma AddressSignedBySigner(conf: Config, cache: Cache, q: QueryInfo, now: int)
    requires |q.dns.question| > 0 && |q.dns.question[0].name| > 0
    requires q.dns.question[0].qType != TYPE_DNSKEY && q.dns.question[0].qType != TYPE_DS
    requires Dispatch(conf, cache, q, now).0.Success?
    ensures var (r, c') := Dispatch(conf, cache, q, now);
      AddressSigned(conf, c'.zones, q.dns.question[0].name, r.value.dns.answer)
  {
    var qName := q.dns.question[0].name;
    assert Dispatch(conf, cache, q, now) == AddressAnswer(conf, cache, q, qName, now);
    AddressAnswerSigned(conf, cache, q, qName, now);
  }

  /**
   * `answer` is the address record of `qName` for the server and its
   * signature, made with the zone-signing key `zones` holds for the signer zone.
   */
  predicate AddressSigned(conf: Config, zones: map<seq<byte>, Material>, qName: seq<byte>, answer: seq<ResourceRecord>)
    requires |qName| > 0
  {
    var signer := AddressSigner(qName);
    && signer in zones
    && |answer| == 2
    && answer[0] == ResourceRecord(qName, TYPE_A, CLASS_IN, ZONE_TTL, 0, A(conf.serverIp))
    && answer[1].name == qName && answer[1].rrType == TYPE_RRSIG && answer[1].rdata.RrsigData?
    && var sig := answer[1].rdata.sig;
       && sig.typeCovered == TYPE_A && sig.signerName == signer && sig.keyTag == U16(zones[signer].zskTag)
       && DnssecAlgorithmerFactory(conf.algo).Some? && Named(answer[0])
       && conf.c.sign(DnssecAlgorithmerFactory(conf.algo).value, SigningInput(sig.(signature := []), [answer[0]]),
                      zones[signer].privateZsk) == Some(sig.signature)
  }

  lemma AddressAnswerSigned(conf: Config, cache: Cache, q: QueryInfo, qName: seq<byte>, now: int)
    requires |qName| > 0 && AddressAnswer(conf, cache, q, qName, now).0.Success?
    ensures var (r, c') := AddressAnswer(conf, cache, q, qName, now);
      AddressSigned(conf, c'.zones, qName, r.value.dns.answer)
  {
    var rec := ResourceRecord(qName, TYPE_A, CLASS_IN, ZONE_TTL, 0, A(conf.serverIp));
    var signer := AddressSigner(qName);
    var (c', m) := Materialise(conf, cache, signer, now).value;
    var sigRec := SignedBy(conf, rec, signer, m, now).value;
    assert AddressAnswer(conf, cache, q, qName, now) == (Success(Answered(conf, q, [rec, sigRec])), c');
    SignedAddress(conf, c'.zones, qName, rec, sigRec, now);
  }

  /** The address record and the signer zone's signature of it make a signed address answer. */
  lemma SignedAddress(conf: Config, zones: map<seq<byte>, Material>, qName: seq<byte>, rec: ResourceRecord, sigRec: ResourceRecord, now: int)
    requires |qName| > 0 && rec == ResourceRecord(qName, TYPE_A, CLASS_IN, ZONE_TTL, 0, A(conf.serverIp))
    requires AddressSigner(qName) in zones
    requires SignedBy(conf, rec, AddressSigner(qName), zones[AddressSigner(qName)], now) == Success(sigRec)
    ensures AddressSigned(conf, zones, qName, [rec, sigRec])
  {
    var signer := AddressSigner(qName);
    var m := zones[signer];
    SignatureCoversRecords(conf.c, [rec], conf.algo, Expiration(now), Inception(now), U16(m.zskTag), signer, m.privateZsk);
  }

  /** Every cached key set can be counted in the 16-bit answer count. */
  predicate Fits(cache: Cache)
  {
    forall z :: z in cache.zones ==> |cache.zones[z].dnskeyRespSec| < 0x1_0000
  }

  /** Responses answer their queries, and the cache keeps fitting. */
  lemma DispatchAnswers(conf: Config, cache: Cache, q: QueryInfo, now: int)
    requires Fits(cache)
    ensures var (r, c') := Dispatch(conf, cache, q, now);
      Fits(c') && (r.Success? ==> Answers(q, r.value))
  {
    DispatchGrowsCache(conf, cache, q, now);
    var (r, c') := Dispatch(conf, cache, q, now);
    if c' != cache {
      MaterialLayout(conf.c, conf.algo, Touched(q), now, cache.draws);
    }
    if |q.dns.question| > 0 && |q.dns.question[0].name| > 0 {
      var qName := q.dns.question[0].name;
      if q.dns.question[0].qType == TYPE_DNSKEY {
        KeyAnswerFacts(conf, cache, q, qName, now);
      } else if q.dns.question[0].qType == TYPE_DS {
        DsAnswerFacts(conf, cache.zones, q, qName, now);
      } else {
        AddressAnswerFacts(conf, cache, q, qName, now);
      }
    }
  }

  /**
   * DNSSECResponser: the configuration, the zones' material and the next
   * randomness draw of the key generator.
   */
  class DnssecResponder {
    const conf: Config
    var dnssecMap: map<seq<byte>, Material>
    var draws: nat

    constructor (conf: Config, anchors: map<seq<byte>, Material>)
      ensures this.conf == conf && dnssecMap == anchors && draws == 0
    {
      this.conf := conf;
      dnssecMap := anchors;
      draws := 0;
    }

    /** The zone's material from the map, created, stored and the draws advanced past when it is absent. */
    method MaterialFor(zone: seq<byte>, now: int) returns (r: Result<Material, Fault>)
      modifies this
      ensures var m := Materialise(conf, old(Cache(dnssecMap, draws)), zone, now);
        && (m.Failure? ==> r == Failure(m.error) && dnssecMap == old(dnssecMap) && draws == old(draws))
        && (m.Success? ==> r == Success(m.value.1) && Cache(dnssecMap, draws) == m.value.0)
    {
      if zone in dnssecMap {
        return Success(dnssecMap[zone]);
      }
      r := CreateDnssecMat(conf.c, conf.algo, zone, now, draws);
      if r.Success? {
        dnssecMap := dnssecMap[zone := r.value];
        draws := draws + 2;
      }
    }

    /** DNSSECResponser.Response: the response and the new cache are those of Dispatch. */
    method Response(q: QueryInfo, now: int) returns (r: Result<ResponseInfo, Fault>)
      modifies this
      ensures (r, Cache(dnssecMap, draws)) == Dispatch(conf, old(Cache(dnssecMap, draws)), q, now)
    {
      if |q.dns.question| == 0 {
        return Failure(NoQuestion);
      }
      var rInfo := InitResp(conf.defaultResp, q);
      var qType := q.dns.question[0].qType;
      var qName := q.dns.question[0].name;
      if qType == TYPE_DNSKEY {
        r := KeyResponse(q, rInfo, qName, now);
      } else if |qName| == 0 {
        return Failure(EmptyName);
      } else if qType == TYPE_DS {
        r := DsResponse(q, rInfo, qName, now);
      } else {
        r := AddressResponse(q, rInfo, qName, now);
      }
    }

    /** The DNSKEY branch of Response. */
    method KeyResponse(q: QueryInfo, rInfo: ResponseInfo, qName: seq<byte>, now: int) returns (r: Result<ResponseInfo, Fault>)
      requires rInfo == InitResp(conf.defaultResp, q)
      modifies this
      ensures (r, Cache(dnssecMap, draws)) == KeyAnswer(conf, old(Cache(dnssecMap, draws)), q, qName, now)
    {
      var mat := MaterialFor(qName, now);
      if mat.Failure? {
        return Failure(mat.error);
      }
      var answer := mat.value.dnskeyRespSec;
      var rInfo' := rInfo.(dns := rInfo.dns.(answer := answer));
      rInfo' := rInfo'.(dns := rInfo'.dns.(header := rInfo'.dns.header.(anCount := U16(|answer|), rCode := RCODE_NO_ERROR)));
      r := Success(rInfo');
    }

    /** The DS branch of Response, which only reads the map. */
    method DsResponse(q: QueryInfo, rInfo: ResponseInfo, qName: seq<byte>, now: int) returns (r: Result<ResponseInfo, Fault>)
      requires rInfo == InitResp(conf.defaultResp, q) && |qName| > 0
      ensures r == DsAnswer(conf, dnssecMap, q, qName, now)
    {
      if qName !in dnssecMap || |dnssecMap[qName].dnskeyRespSec| < 2 || !dnssecMap[qName].dnskeyRespSec[1].rdata.DnskeyData? {
        return Failure(MissingZoneKey);
      }
      var ds := GenerateDs(conf.c, qName, dnssecMap[qName].dnskeyRespSec[1].rdata.key, conf.dType);
      if ds.Failure? {
        return Failure(ds.error);
      }
      var qSignerName := UpperDomainName(qName);
      var rec := ResourceRecord(qName, TYPE_DS, CLASS_IN, ZONE_TTL, U16(DsSize(ds.value)), DsData(ds.value));
      var mat := if qSignerName in dnssecMap then dnssecMap[qSignerName] else NO_MATERIAL;
      var sigRec := SignRecord(rec, qSignerName, mat, now);
      if sigRec.Failure? {
        return Failure(sigRec.error);
      }
      var rInfo' := rInfo.(dns := rInfo.dns.(answer := [rec, sigRec.value]));
      rInfo' := rInfo'.(dns := rInfo'.dns.(header := rInfo'.dns.header.(anCount := 2, rCode := RCODE_NO_ERROR)));
      assert rInfo' == Answered(conf, q, [rec, sigRec.value]);
      r := Success(rInfo');
    }

    /** The branch of Response for every other type: a signed address record. */
    method AddressResponse(q: QueryInfo, rInfo: ResponseInfo, qName: seq<byte>, now: int) returns (r: Result<ResponseInfo, Fault>)
      requires rInfo == InitResp(conf.defaultResp, q) && |qName| > 0
      modifies this
      ensures (r, Cache(dnssecMap, draws)) == AddressAnswer(conf, old(Cache(dnssecMap, draws)), q, qName, now)
    {
      var rec := ResourceRecord(qName, TYPE_A, CLASS_IN, ZONE_TTL, 0, A(conf.serverIp));
      var qSignerName := AddressSigner(qName);
      var mat := MaterialFor(qSignerName, now);
      if mat.Failure? {
        return Failure(mat.error);
      }
      var sigRec := SignRecord(rec, qSignerName, mat.value, now);
      if sigRec.Failure? {
        return Failure(sigRec.error);
      }
      var rInfo' := rInfo.(dns := rInfo.dns.(answer := [rec, sigRec.value]));
      rInfo' := rInfo'.(dns := rInfo'.dns.(header := rInfo'.dns.header.(anCount := 2, rCode := RCODE_NO_ERROR)));
      r := Success(rInfo');
    }

    /** The RRSIG record over the single record `rec`, made with the zone-signing key of `mat`, owned by `rec`'s owner. */
    method SignRecord(rec: ResourceRecord, signer: seq<byte>, mat: Material, now: int) returns (r: Result<ResourceRecord, Fault>)
      requires Named(rec) && |signer| > 0
      ensures r == SignedBy(conf, rec, signer, mat, now)
    {
      var sig := GenerateRrsig(conf.c, [rec], conf.algo, Expiration(now), Inception(now), U16(mat.zskTag), signer, mat.privateZsk);
      if sig.Failure? {
        return Failure(sig.error);
      }
      r := Success(SigRecord(rec.name, sig.value));
    }
  }
}
