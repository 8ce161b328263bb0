# godns core in Dafny

A Dafny model of the core of godns, a Go DNS server for DNSSEC experiments. The model covers three parts of the source:

- **The wire codec of dns/standard.go** (module `DomainNames`, file `names.dfy`; module `CharacterStrings`, file `charstr.dfy`).
  - Domain names: their wire length, the two encoders (into a fresh slice and into a caller's buffer), the plain decoder and the buffer decoder that follows compression pointers.
  - Character-strings: chunked into pieces of at most 255 bytes, each after a length byte.
- **The DNSSEC record builders of dns/xperi/dnssec.go** (module `Dnssec`, file `dnssec.dfy`).
  - The key tag of Appendix B of RFC 4034, and DNSKEY generation.
  - RRSIG generation: the signing input of section 3.1.8.1 of RFC 4034, assembled in a buffer.
  - DS generation: the digest input of section 5.1.4 of RFC 4034.
  - The algorithm factory, the search for a key with a given tag, and the random RRSIG.
- **The responders of responser.go** (module `Responders`, file `responser.dfy`).
  - `DullResponser`, and `InitResp` of both responders.
  - `StatefulResponser` as a class whose client map is a field that `RegisterClient` updates.
  - `DNSSECResponser` as a class whose per-zone key cache is a map field. Its `Response` materialises a zone's keys on first sight of a DNSKEY query or of an address query, and answers DS queries from the cache alone.

Shared modules:

- `Octets` (`octets.dfy`): bytes, 16- and 32-bit words, Go's truncating conversions, big-endian encodings, and the Option/Result wrappers that stand for Go's errors and panics.
- `Records` (`records.dfy`): the resource records and the RDATA the builders need, in the wire form of section 3.2.1 of RFC 1035 and sections 2.1, 3.1 and 5.1 of RFC 4034. The `dns` package files that define these records are not part of this model; their `Size`, `Encode` and `EncodeToBuffer` are defined here from those RFCs.

Modelling choices:

- **Panics become results.** A Go panic (an unsupported algorithm or digest type, a failed signature, a DS query for a zone without keys, a query without a question) becomes a `Failure` of the `Fault` datatype.
- **The decoders follow the code.** A Go index panic in the buffer decoder is the `IndexPanic` outcome of `DomainNames.AsWrittenAt`.
- **Cryptography is an oracle.** Key generation, signing and hashing are the function fields of the `Crypto` datatype. Key generation is indexed by a draw number that stands for the randomness consumed. Signing returns `None` where the Go code returns an error.
- **Time is a parameter.** The responders take the clock as a parameter `now`.

## Model

| member | source | states |
|---|---|---|
| DomainNames.GetDomainNameWireLen | dns/standard.go:39-49 | the wire length is 1 for the root "." and otherwise the length of the absolute text (a trailing '.' added if missing) plus one |
| DomainNames.NameWireOfLabels | dns/standard.go:53-78 | a name made of labels of 1 to 63 bytes encodes, written relative or absolute, to each label's length byte and bytes followed by a zero byte, exactly the reading of section 3.1 of RFC 1035 |
| DomainNames.LabelsWireAgrees | dns/standard.go:63-76 | the positional wire form of joined labels (length byte where a label starts, else the preceding text byte) equals the label-by-label wire form |
| DomainNames.NameWireOfText | dns/standard.go:53-78 | a name other than the root encodes to the labels of its absolute text followed by a zero, and its wire length is one more than that text |
| DomainNames.ExampleEncoding | dns/standard.go:53-78 | "www.example.com" and "www.example.com." both encode to 3 www 7 example 3 com 0, and the wire length is 17 |
| DomainNames.ExampleText | dns/standard.go:64-72 | the labels www, example, com join into the absolute text "www.example.com." |
| DomainNames.ExampleWire | dns/standard.go:64-76 | the labels www, example, com have the wire form 3 www 7 example 3 com 0 |
| DomainNames.PutLabels | dns/standard.go:63-76 | the encoder's label loop leaves the labels of the absolute text, in wire form, in the first bytes of the buffer and changes nothing after them |
| DomainNames.PutLabel | dns/standard.go:66-67 | one label's length byte and bytes land at the label's position; every other byte is unchanged |
| DomainNames.EncodeDomainName | dns/standard.go:53-78 | the returned slice is the wire form of the name (the root gives the single byte 0) |
| DomainNames.EncodeDomainNameToBuffer | dns/standard.go:85-113 | a buffer shorter than the wire length gives -1 and is left untouched; otherwise the wire length is returned and every wire byte but the final zero is written, with nothing after it changed |
| DomainNames.ZeroedBufferHoldsWire | dns/standard.go:85-113 | on a zero-filled buffer what the buffer encoder leaves is the complete wire form, final zero included |
| DomainNames.DecodeDomainName | dns/standard.go:122-136 | on a zero-terminated label sequence the result is the text of the labels without its trailing '.', or "." for the root |
| DomainNames.DecodeEncodeRoundTrip | dns/standard.go:122-136 | decoding the encoding of a valid name gives the name with any trailing '.' removed, and "." stays "." |
| DomainNames.Pointer | dns/standard.go:158-159 | a compression pointer's target is below 0x4000, the low 14 bits of the two bytes |
| DomainNames.DecodeDomainNameFromBuffer | dns/standard.go:143-186 | the method's loop and recursion compute the decoder as written, including its error and panic outcomes |
| DomainNames.AsWrittenDecodesEncodedName | dns/standard.go:148-185 | a pointer-free name anywhere in a message decodes to its relative text, with the next offset just past its wire form |
| DomainNames.AsWrittenAt | dns/standard.go:143-186 | a buffer shorter than offset + 1 is BufferTooSmall, and a decoded name's next offset lies past the offset and within the buffer |
| DomainNames.AsWrittenLoop | dns/standard.go:154-186 | the label loop: a decoded name ends after the position it starts reading at, and within the buffer |
| DomainNames.AsWrittenCompressedName | dns/standard.go:154-167 | labels followed by a pointer decode to the labels joined with what the target decodes to, last byte dropped, and the next offset is two past the pointer's first byte |
| DomainNames.AsWrittenReadsCom | dns/standard.go:148-185 | the message 3 c o m 0 decodes at offset 0 to "com" with next offset 5 |
| DomainNames.AsWrittenPointerDropsLastByte | dns/standard.go:160-181 | a pointer to "com" decodes as written to "co" |
| DomainNames.AsWrittenTruncatedPointerPanics | dns/standard.go:156-158 | a pointer byte at the end of the buffer makes the decoder as written read past the end; the corrected decoder reports truncation |
| DomainNames.AsWrittenMissingTerminatorPanics | dns/standard.go:154 | the wire form of any name but the root with its zero byte cut off makes the decoder as written read past the end |
| DomainNames.AsWrittenSelfPointerNeverEnds | dns/standard.go:156-160 | a pointer to itself is followed as deep as the decoder is allowed to go; the corrected decoder rejects it |
| DomainNames.CorrectedDecodesEncodedName | dns/standard.go:143-186 | the corrected decoder reads a pointer-free name anywhere in a message back to its relative text and the offset past it |
| DomainNames.CorrectedDecodesText | dns/standard.go:148-185 | the corrected decoder reads the wire form of a name other than the root, wherever it sits, as its relative text with the offset past it |
| DomainNames.CorrectedDecodesRoot | dns/standard.go:180-183 | the corrected decoder reads the root as "." with the next offset one past it |
| DomainNames.CompressedNameJoins | dns/standard.go:154-167 | in the corrected decoder, labels followed by a backward pointer read as the labels followed by the whole name at the target, and the next offset is two past the pointer |
| DomainNames.CorrectedPointerKeepsName | dns/standard.go:160-166 | the corrected decoder reads a pointer to "com" as "com" |
| DomainNames.ForwardPointerRejected | dns/standard.go:156-160 | the corrected decoder rejects a pointer that does not point strictly before its own name, so every pointer chain ends |
| DomainNames.CorrectedTruncatedNameIsError | dns/standard.go:148-173 | the corrected decoder reports any valid name's wire form cut short as truncated |
| CharacterStrings.GetCharacterStrWireLen | dns/standard.go:188-196 | the wire length is at least one more than the string's length |
| CharacterStrings.ChunksLength | dns/standard.go:188-196 | the wire length formula (1 for the empty string, else the length plus one byte per started 255 bytes) is the length of the chunked form |
| CharacterStrings.PutChunks | dns/standard.go:207-218 | the chunk loop writes the chunked form of a non-empty string to the front of the buffer and changes nothing after it |
| CharacterStrings.EncodeCharacterStr | dns/standard.go:198-220 | the result is 255-byte chunks each after the byte 255, then one last chunk of 1 to 255 bytes after its length, or the single byte 0 for the empty string |
| CharacterStrings.EncodeCharacterStrToBuffer | dns/standard.go:222-249 | a buffer shorter than the wire length gives -1 and is left untouched; otherwise the wire length is returned, the chunked form written and nothing after it changed |
| CharacterStrings.ThreeHundredBytes | dns/standard.go:188-220 | a 300-byte string is written as a chunk of 255 then a chunk of 45, 302 bytes in all |
| CharacterStrings.DecodeCharacterStr | dns/standard.go:251-267 | the decoder returns the concatenated chunk bytes, the empty string for any single byte, and nothing where a chunk runs past the end (where the Go slice expression panics) |
| CharacterStrings.ChunkOverruns | dns/standard.go:261-263 | a chunk whose length byte reaches past the end of the data makes the decoding fail |
| CharacterStrings.UnchunkChunks | dns/standard.go:198-267 | reading the chunks of an encoded string gives the string back |
| CharacterStrings.DecodeEncodeRoundTrip | dns/standard.go:198-267 | decoding the encoding of any string gives the string back |
| CharacterStrings.UnchunkConcatenates | dns/standard.go:251-267 | two encoded strings written one after the other decode to their concatenation |
| Records.LabelCountOfLabels | dns/xperi/dnssec.go:96 | the label count of a name made of n labels, relative or absolute, is n |
| Records.RecordsWireLength | dns/xperi/dnssec.go:105-108 | the sum of the records' sizes is the length of their concatenated encodings |
| Records.EncodeAll | dns/xperi/dnssec.go:117-123 | writing each record's encoding at the advancing offset fills the buffer up to the end of the target contents |
| Records.EncodeToBuffer | dns/xperi/dnssec.go:110-113 | an encoding that does not fit gives -1 and leaves the buffer alone; otherwise its bytes land at the offset and nothing else changes |
| Dnssec.CalculateKeyTag | dns/xperi/dnssec.go:38-50 | the accumulator loop, with its 32-bit wrap-around, computes the key tag of Appendix B of RFC 4034 over the DNSKEY RDATA |
| Dnssec.PrefixSumIsWordSum | dns/xperi/dnssec.go:41-47 | adding even-position bytes shifted left by 8 and odd-position bytes as they are is the sum of big-endian 16-bit words, an odd last byte being a high byte |
| Dnssec.KeyTagOfSmallSum | dns/xperi/dnssec.go:48-49 | when the word sum fits in 32 bits the tag is that sum plus its high half, modulo 65536 |
| Dnssec.KeyTagExample | dns/xperi/dnssec.go:38-50 | a key-signing RSASHA256 key with no key bytes has RDATA 1 1 3 8 and tag 1033 |
| Dnssec.GenerateDnskey | dns/xperi/dnssec.go:60-69 | for a supported algorithm the key has the given flags, protocol 3 and the algorithm, and the generator's key pair supplies the public and private bytes; otherwise the factory's panic |
| Dnssec.DnssecAlgorithmerFactory | dns/xperi/dnssec.go:220-235 | exactly the five supported algorithm numbers yield an algorithmer, the one with that number |
| Dnssec.FactoryInverse | dns/xperi/dnssec.go:220-235 | every algorithmer is selected by its own number |
| Dnssec.GenKeyWithTag | dns/xperi/dnssec.go:506-522 | a returned key has the requested tag, flags, protocol 3 and algorithm, and is the first draw with that tag; an unsupported algorithm fails at once |
| Dnssec.RrsigOver | dns/xperi/dnssec.go:87-159 | an empty record set or unsupported algorithm fails; otherwise type covered and original TTL come from the first record, labels from its owner's label count, and the other fields are passed through |
| Dnssec.UnsignedRrsig | dns/xperi/dnssec.go:93-103 | type covered, original TTL and labels come from the first record, the signature is empty, so the unsigned RDATA ends with the signer's name in wire form |
| Dnssec.SignatureCoversRecords | dns/xperi/dnssec.go:130-135 | the signature is the oracle's signature, under the private key, of the RRSIG RDATA without signature followed by the records |
| Dnssec.SigningInputLength | dns/xperi/dnssec.go:105-127 | the signing input is as long as the RRSIG RDATA plus the records' encodings |
| Dnssec.PlainLength | dns/xperi/dnssec.go:105-108 | the computed buffer length is the RRSIG size plus the length of the records' encodings |
| Dnssec.AssemblePlainText | dns/xperi/dnssec.go:105-127 | the buffer ends up holding exactly the signing input, so the final offset check cannot fail |
| Dnssec.GenerateRrsig | dns/xperi/dnssec.go:87-159 | the method's result is the RRSIG of the record set as specified by RrsigOver |
| Dnssec.GenRandomRrsig | dns/xperi/dnssec.go:535-562 | an unsupported algorithm fails; otherwise original TTL 3600, and under a standard oracle a signature as long as a real one |
| Dnssec.RandomRrsigMatchesGenerated | dns/xperi/dnssec.go:535-562 | the random RRSIG equals the generated one in every field but the original TTL and the signature |
| Dnssec.DigestAlgorithmOf | dns/xperi/dnssec.go:188-200 | exactly digest types 1, 2 and 4 are supported |
| Dnssec.DigestInput | dns/xperi/dnssec.go:176-184 | the digest input is as long as the owner name's wire length plus the DNSKEY RDATA size |
| Dnssec.DsOf | dns/xperi/dnssec.go:171-209 | exactly the supported digest types succeed; the DS carries the key's tag and algorithm and the digest type, and under a standard oracle a digest of 20, 32 or 48 bytes |
| Dnssec.DigestPlainText | dns/xperi/dnssec.go:176-184 | the buffer ends up holding the owner name's wire form followed by the DNSKEY RDATA |
| Dnssec.PutOwnerName | dns/xperi/dnssec.go:176-180 | on the zeroed buffer the name encoder leaves the full wire form of the owner name |
| Dnssec.GenerateDs | dns/xperi/dnssec.go:171-209 | the method's result is the DS record as specified by DsOf |
| Responders.InitResp | responser.go:120-135 | the header is the default one with the query's ID and question count; the question is echoed, the other sections empty, and MAC, IP and port come from the query; the DNSSEC responder's InitResp (responser.go:322-337) is the same code |
| Responders.InitRespAnswers | responser.go:120-135 | the initial response answers the query exactly when the default header's answer count is 0 |
| Responders.DullResponse | responser.go:33-69 | a query without a question fails; otherwise the header flags and counts are as written and the single answer copies the question's name, type and class, with TTL 3600 and the server's address |
| Responders.Registered | responser.go:104-117 | a new client gets count 1 and an empty list; a known one has its count incremented and the query appended |
| Responders.RegisterKeepsCount | responser.go:104-117 | registration keeps every client's count one more than the length of its list |
| Responders.FirstQueryNotRecorded | responser.go:104-117 | after n queries from a new client its count is n and its list holds all of them but the first |
| Responders.OtherClientsUntouched | responser.go:104-117 | queries from other clients leave a client's entry, or its absence, alone |
| Responders.StatefulResponder.RegisterClient | responser.go:104-117 | the client map gains or updates exactly the querying client's entry, and the count invariant is kept |
| Responders.StatefulResponder.Response | responser.go:94-101 | the client is registered and the initial response is returned |
| Responders.UpperDomainName | responser.go:247 | the signer zone is a non-empty suffix of the name that starts right after its first '.', or "." when there is none |
| Responders.KeyRecord | responser.go:169-184 | a DNSKEY record of the zone in class IN with TTL 86400 and RDLen the key's size |
| Responders.SigRecord | responser.go:199-206 | an RRSIG record in class IN with TTL 86400 and RDLen the signature's size |
| Responders.CreateDnssecMat | responser.go:166-220 | an empty zone name fails, and so does an unsupported algorithm |
| Responders.SignedKeySet | responser.go:186-219 | an unsupported algorithm fails; otherwise the material keeps both private keys, holds [ZSK, KSK] then the key set's signature, and, for keys with the KSK and ZSK flags and the zone's algorithm, is laid out as ZoneMaterial says (tags, signer, time window) |
| Responders.MaterialLayout | responser.go:166-220 | the answer section is ZSK, KSK and RRSIG records of the zone; the tags are the keys' tags; the signature carries the KSK's tag, the zone as signer and the window from now-3600 to now+86400-3600; the two keys are the next two draws |
| Responders.KeySetSelfSigned | responser.go:186-198 | the key-set signature is the oracle's signature, under the KSK's private key, of the two DNSKEY records |
| Responders.Materialise | responser.go:232-236 | a cached zone is returned as it is; an absent one is created from the next draws and added, and no other entry changes |
| Responders.Answered | responser.go:237-239 | the answer section is set, the answer count is its length truncated to 16 bits, the response code is NoError |
| Responders.SignedBy | responser.go:257-273 | the RRSIG record covers the record's type, is owned by its owner, and carries the signer, the signer's ZSK tag and the time window |
| Responders.KeyAnswer | responser.go:230-239 | for a cached zone the answer is the cached key set and the cache is unchanged; a failure leaves the cache unchanged |
| Responders.DsAnswer | responser.go:240-276 | a DS query for a name without cached keys fails |
| Responders.AddressSigner | responser.go:287-291 | the signer is the name's parent, or the name itself when the parent is the root |
| Responders.AddressAnswer | responser.go:277-317 | with the signer zone cached the cache is unchanged; an answer holds the address record for the server and one more record |
| Responders.KeyAnswerFacts | responser.go:230-239 | a DNSKEY query leaves the cache alone or adds the queried zone, and answers with that zone's cached key records |
| Responders.DsAnswerFacts | responser.go:240-276 | a DS answer holds two records and answers the query |
| Responders.DsSignedByParent | responser.go:247-276 | the DS answer is the DS record and its RRSIG, made by the parent zone with the parent's cached ZSK tag and private key, tag 0 and an empty key when the parent is absent; the signature is the oracle's over the unsigned RRSIG and the DS record |
| Responders.AddressAnswerFacts | responser.go:277-317 | an address query leaves the cache alone or adds the signer zone, and its answer holds two records |
| Responders.DispatchGrowsCache | responser.go:223-319 | a query leaves the cache as it was or adds the one zone it touches; cached material is never replaced |
| Responders.Dispatch | responser.go:223-319 | no question fails with NoQuestion; an empty name fails with EmptyName unless it is a DNSKEY query for a cached zone, which is answered from the cache; both failures leave the cache; every response echoes the question and ID with NoError |
| Responders.RepeatedKeyQuery | responser.go:230-239 | a second DNSKEY query for the same zone leaves the cache alone and returns the same answer section |
| Responders.EmptyKeyNameFromCache | responser.go:230-239 | a DNSKEY query for the empty name, when that name is cached, is answered with the cached key set and leaves the cache unchanged |
| Responders.DsQueryReadsOnly | responser.go:240-276 | a DS query never changes the cache and fails for a zone not in it |
| Responders.DsDescribesServedKey | responser.go:240-276 | the DS served after a DNSKEY query carries the served KSK's tag and algorithm and the digest of the zone's name and that key |
| Responders.AddressSignedBySigner | responser.go:277-317 | an address answer is the A record for the server and an RRSIG by the signer zone, whose signature is the oracle's signature of that record under the signer's ZSK |
| Responders.DispatchAnswers | responser.go:223-319 | every successful response answers its query (addresses, ID, question and answer count copied) |
| Responders.DnssecResponder.MaterialFor | responser.go:232-236 | the zone's material is taken from the cache or created and stored, as Materialise says |
| Responders.DnssecResponder.Response | responser.go:223-319 | the response and the new cache are those of the dispatch function |
| Responders.DnssecResponder.KeyResponse | responser.go:230-239 | the DNSKEY branch computes the DNSKEY answer and cache |
| Responders.DnssecResponder.DsResponse | responser.go:240-276 | the DS branch computes the DS answer without touching the cache |
| Responders.DnssecResponder.AddressResponse | responser.go:277-317 | the address branch computes the address answer and cache |
| Responders.DnssecResponder.SignRecord | responser.go:257-273 | the RRSIG record is the one SignedBy specifies |

## Left out

- I/O: netter.go (sockets, goroutines, the TCP length prefix) is not part of this model.
- Concurrency: the unguarded shared maps of the responders are modelled as sequential state.
- Cryptography: RSA and ECDSA signing and key generation, SHA digests, x509 and base64 are the oracle `Dnssec.Crypto`. Two problems in them are not modelled:
  - `RSASHA1.Sign` hashes with SHA-1 but signs as SHA-256 (dns/xperi/dnssec.go:241 and 250).
  - `RSASHA512.Sign` ignores the key-parse error (dns/xperi/dnssec.go:316).
- GenWrongKeyWithTag (dns/xperi/dnssec.go:418-494) depends on random keys and has no stable contract; it is not modelled.
- Dnssec.GenKeyWithTag: the Go loop retries forever, while the model tries at most `attempts` draws and then fails with NoKeyFound.
- Dnssec.GenRandomRrsig: the random bytes that overwrite the signature are an oracle draw, and the ignored rand.Read error is not modelled.
- Dnssec.GenerateDnskey: keys come from a numbered draw of the oracle, so two calls with the same draw give the same key.
- Signing: the oracle's `sign` is a function, so signing the same data with the same key always gives the same signature; Go's ECDSA signing draws fresh randomness on every call. No contract here relies on two signatures being equal.
- Time: `now` is one parameter, although the Go code reads the clock twice for each signature.
- Byte strings: names are byte strings. Go's `for index := range` steps by rune; the model assumes ASCII names, where runes and bytes agree.
- Slice capacities are not modelled.
- DomainNames.DecodeDomainName: requires a zero-terminated label sequence; on other input the Go code panics with an index out of range.
- DomainNames.GetDomainNameWireLen: requires a non-empty name; the Go code panics on the empty string. The DNSSEC responder reports an empty query name as the `EmptyName` failure where its Go branch would encode or sign that name: a DS query, any other non-DNSKEY query, and a DNSKEY query for a name without cached material. A DNSKEY query for an empty name that is cached is answered from the cache, as in the Go code.
- Dnssec.RrsigOver, Dnssec.GenerateRrsig: require a non-empty signer name and non-empty record owner names, because the wire length of an empty name panics in the Go code.
- Dnssec.GenRandomRrsig: requires only that the first record, when there is one, has a non-empty owner name; it encodes nothing, and that owner name is handed to CountDomainNameLabels, which is not part of this model and is assumed to need a non-empty name.
- Dnssec.UnsignedRrsig: requires a non-empty record set, on which the Go code's `rrSet[0]` panics (RrsigOver reports it as EmptyRecordSet), and a non-empty first owner name, which CountDomainNameLabels is assumed to need.
- Dnssec.DigestInput, Dnssec.DsOf, Dnssec.GenerateDs: require a non-empty owner name, for the same reason.
- DomainNames.DecodeDomainNameFromBuffer: the offset is a natural number. Go's `offset int` may be negative; such an offset skips the size check and then panics on the index at standard.go:154. That case is not modelled.
- DomainNames.DecodeDomainNameFromBuffer: follows at most `fuel` pointers and reports a longer chain as `Unbounded`, where the Go recursion has no bound.
- Records: the `dns` package's record types and encoders are not part of this model. The wire forms follow section 3.2.1 of RFC 1035 and sections 2.1, 3.1 and 5.1 of RFC 4034, and each `Size` is the length of its encoding.
- Records.CountDomainNameLabels: the source of CountDomainNameLabels is not part of this model. The model counts the labels of the absolute text and gives 0 for the root.
- Responders.UpperDomainName: the source of GetUpperDomainName is not part of this model. The model drops the first label, giving "." when no label is left.
- Responders.DullResponse, Responders.DnssecResponder.Response: a query without a question fails with `NoQuestion`, where the Go code panics on `Question[0]`.
- Responders.DsAnswer: its own contract states only the missing-key failure. The answer's shape is stated by Responders.DsAnswerFacts, the DS contents by Responders.DsDescribesServedKey, and its signature by the parent zone by Responders.DsSignedByParent.
- Responders.DispatchAnswers: the answer count is copied only while the answer has fewer than 65536 records, which the cache invariant `Fits` guarantees.
- A DS query whose parent zone has no cached keys is signed with the zero material (tag 0, empty private key), as in the Go code. What the oracle's signer does with an empty key is left to the oracle.
- The client map is keyed by the query's IP bytes, not by `IP.String()`. A nil client map, which would panic at its first insertion, is not modelled; neither is a nil `DNSSECMap`, which would panic at its first insertion (responser.go:234 and 294).

## Findings

| source | as written | input that shows it | evidently intended | confidence | as-written member | corrected member |
|---|---|---|---|---|---|---|
| dns/standard.go:164-181 | after a pointer, the decoded target (already without its trailing '.') is appended and then one more byte is cut off | bytes 3 c o m 0 0xC0 0x00, decoded at offset 5 | "com" | high; not executed | DomainNames.AsWrittenPointerDropsLastByte | DomainNames.CorrectedPointerKeepsName |
| dns/standard.go:156-158 | the pointer's second byte is read without a bounds check | the single byte 0xC0 | a buffer-too-small error | high; not executed | DomainNames.AsWrittenTruncatedPointerPanics | DomainNames.CorrectedTruncatedNameIsError |
| dns/standard.go:154 | the loop reads the next length byte without a bounds check | the wire form of "com" without its final 0 | a buffer-too-small error | high; not executed | DomainNames.AsWrittenMissingTerminatorPanics | DomainNames.CorrectedTruncatedNameIsError |
| dns/standard.go:156-160 | pointers are followed with no loop guard | bytes 0xC0 0x00, a pointer to itself | an error for a pointer that does not point backwards | high; not executed | DomainNames.AsWrittenSelfPointerNeverEnds | DomainNames.ForwardPointerRejected |
