# Veilweave: a verified model of its hard parts

This project models, in Dafny, the parts of Veilweave whose correctness depends on more than one
function at a time, and proves what they promise for every input and every run.

**The relay session.** One session object receives events that interleave at every `await`:
frames, closes, completed reads, writes and connects, and the records of a download loop. `Session`
states it as a step machine in which each synchronous section between two awaits is one step;
`SessionInvariant` and `SessionSafety` give the invariant that every step keeps; `SessionClaims`
draws the whole-run claims about upload order, lost wake-ups and nonces, `SessionQueries` those
about the packets asked over UDP. `SessionCourse` says from the received bytes alone where a session
must be, and follows which target it serves and what has gone down; `SessionProgress` shows that every
drain ends there and that a client which sends a legal header is served. `Pump` holds the same code
in its own imperative shape, as loops over the mutable fields of `Inbound.Inner` that are suspended
while other events are delivered, and proves that it ends every sequence of events where the step
machine does. `Records`, `Vless`, `Handshake` and `Nonce` are the framing, the request header, the
reads of the handshake and the counter underneath; `Download`, `Connect` and `Downlink` are the way
back down, with and without an HTTP proxy in front of the target, whose status code `Status` reads.

**The proxyIP dataset.** `ProxyIp` ingests a feed, `Country` settles which country an endpoint
belongs to, `Groups` caps the lists by taking turns, `Dataset` checks and compares generations,
`Selection` draws a fair rotated selection, and `Serving` puts all of it together. `RoundRobin` is the
order in which lists are capped and endpoints drawn, `Revision` the name of a generation, and
`Reordering` what the order of the records of a feed does.
`KnownGood` is the promotion of generations through two slots under failing reads and writes,
crashes and concurrent refreshes.

**Undo journals.** `Saga` says when a compensation takes a step back and what it may leave behind,
`Steps` which calls a deployment makes in which order, and what running them does. `Rollback` says
what every step keeps, `Programs` that plans are lists of calls that create nothing twice, `Restoration`
to which world a failed deployment is rolled back and which plans are always restored; `LostUpdates`
shows two that are not. `Releases` says what a deployment that works out has uploaded and left live,
`Feasible` exactly which ones do work out, and `Journal` that what is on record is true. `Deploy` is the remote side and the transaction, `Apply` the apply functions
in their own imperative shape, proved to run those steps. `Migration` is the smaller journal over the
credential store.

**Exact arithmetic and codecs.** `Calendar` relates two calendars, `Fips` and `Sha256` the streaming
hash to the standard, `Hmac` what is built on it, `UuidCodec`, `Subscription` and `DecodeCache` the
signed UUID from the line of a subscription to the relay's cache. `Bytes`, `Bits`, `Text` and
`Payload` are shared vocabulary.

Cryptographic primitives other than SHA-256 and HMAC are parameters: AES-GCM, ML-KEM, X25519 and
BLAKE3 appear as arbitrary functions, so every claim holds for all of them. Network, clock,
randomness and remote services are parameters too: each call that can fail takes its outcome from an
arbitrary script, and the claims are about every script.

Where a broader promise would be false of the code, the project follows the code: it gives the input
that fails and proves for which inputs the promise holds. This concerns the printed weekday
(`Calendar.PrintedWeekday`), the merge of country codes (`Country.MergeAllIsLeast`,
`Reordering.RecordOrderIrrelevant`), an active slot that does not parse (`KnownGood.NeverLostExactly`),
a leftover too long for one record (`Downlink.ReadableExactly`), an empty or unreadable secret in the
credential store (`Migration.RestoredExactly`), and three conditions of the deployment saga: an
updated Worker whose traffic is split between versions, one whose workers.dev state is on, wanted on,
and cannot be read, and a plan that creates one Worker twice, by the id and by the name of its account
(`Restoration.RestoredExactly`, with runs of the first two in `LostUpdates`). A session that is
closed while it connects is assigned a data phase afterwards, as in the code
(relay/src/session.rs:692-695 and 782-785); the claims hold there too.

`dafny verify dfyconfig.toml` checks everything.

## Model

| member | source | states |
|---|---|---|
| `SessionProgress.TcpServed` | relay/src/session.rs:747-785 | A client is served: if its frames carry a legal TCP header and a payload, in plaintext or behind a legal clientHello in records that open, and no close falls and nothing but a query fails, then whatever their cut and interleaving, finitely many completed operations bring the session to the data phase with the writer set; it has dialled exactly the target that the header spells on the way its UUID stands for, handed over exactly the payload, and sent down the response and then what the connect had left over |
| `SessionProgress.UdpServed` | relay/src/session.rs:786-846 | The same for a UDP header: the packets of the payload's buffers have been asked of the target the header spells, each query has ended, and the response and then every non-empty reply, framed, has gone down in order |
| `SessionProgress.EndsAsJudged` | relay/src/session.rs:376-553 | Every such run goes on to where the frames sent call for: closed exactly if the bytes are refused, waiting exactly if greeting or header is incomplete, serving exactly if a header is there |
| `SessionProgress.RestsRightly` | relay/src/session.rs:376-391 | Whenever such a session is at rest it is where its bytes call for; in particular it has given up only on bytes that are refused |
| `SessionProgress.Drains` | relay/src/session.rs:376-391 | From every reachable state, whatever the replies, finitely many operations that succeed bring the pump to rest |
| `SessionProgress.WaitsForTarget` | relay/src/session.rs:666-678 | Whenever a session waits for its target it holds exactly the payload that came with the header, and nothing has gone up or down |
| `SessionCourse.OneTarget` | relay/src/session.rs:640-797 | In every run, disturbed or not, at most one target is dialled and it is that of the header, nothing is written before, and what has gone down is the beginning of the response, then the leftover or the replies |
| `SessionCourse.BadIsFinal` | relay/src/session.rs:413-489 | Bytes that are refused are refused whatever follows them |
| `SessionCourse.StepOn` | relay/src/session.rs:395-846 | Every step keeps to the course: which target, what has gone down and how many seals, at each await; and a session without a close or a failed operation ends only on refused bytes |
| `SessionClaims.UploadLinear` | relay/src/session.rs:286-332 | In every run, whatever the interleaving of frames, closes, completions and failures, the bytes handed to the target are a prefix of the payload that the accepted bytes carry behind the header: nothing lost, repeated or reordered |
| `SessionClaims.UploadComplete` | relay/src/session.rs:376-391 | When a TCP session has no pump running, all of that payload has been handed over |
| `SessionClaims.UploadOfFrames` | relay/src/session.rs:286-314 | The same in terms of the frames sent, in arrival order, as long as none arrives behind a close |
| `SessionClaims.FramesInOrder` | relay/src/session.rs:296-314 | The accepted bytes are a prefix of the frames in arrival order, and all of them while the session lives or its pump still runs |
| `SessionClaims.NoLostWakeup` | relay/src/session.rs:193-217 | No reachable state without a pump holds anything processable, in any phase |
| `SessionClaims.WakingIsIdle` | relay/src/session.rs:376-391 | Pumping such a state again changes nothing but the compaction of the buffer |
| `SessionClaims.WriteNoncesInOrder` | relay/src/session.rs:743-797 | Over a whole connection the handshake, the pump and the one download loop together seal under the nonces 1, 2, 3, … in order |
| `SessionClaims.WriteNoncesDistinct` | relay/src/enc.rs:67-75 | No write nonce repeats within 2^96 - 1 seals |
| `SessionClaims.NothingAfterClose` | relay/src/session.rs:335-369 | Once a session at rest is closed, it accepts, dials, writes, asks and sends nothing more, whatever events follow |
| `SessionClaims.NothingAfterFailure` | relay/src/session.rs:316-332 | Nor after an awaited operation other than a query has failed |
| `SessionQueries.QueriesInOrder` | relay/src/session.rs:810-846 | In every run the packets asked over UDP are, in order and once each, the first complete packets of the plaintext buffers taken so far, and these buffers are a prefix of the payload that the accepted bytes carry behind the header |
| `SessionQueries.QueriesComplete` | relay/src/session.rs:532-553 | When a UDP session has no pump running, every complete packet of every buffer has been asked, and the buffers are all of that payload |
| `SessionQueries.PacketsOfFramed` | relay/src/session.rs:820-828 | Taking a buffer apart inverts length-prefixed framing, whatever partial packet follows |
| `SessionSafety.RunKeeps` | relay/src/session.rs:395-693 | The invariant behind these claims holds after every sequence of events |
| `SessionSafety.StepKeeps` | relay/src/session.rs:286-391 | Every single step keeps it: message, close, completion of any await, download seal |
| `SessionSafety.ResumeKeeps` | relay/src/session.rs:413-553 | Resuming behind any await keeps it, whether the await succeeded or failed |
| `SessionSafety.MessageKeeps` | relay/src/session.rs:286-332 | A frame keeps it, whether dropped, queued or pumped |
| `SessionSafety.CleanupKeeps` | relay/src/session.rs:359-369 | Closing at any moment keeps it |
| `Pump.Simulate` | relay/src/session.rs:286-391 | The code in its own shape, loops over mutable fields suspended at awaits, ends every sequence of events in the state of the step machine |
| `Pump.Relay.Serve` | relay/src/session.rs:286-350 | Entry points and running pump together consume every event and reach that state |
| `Pump.Relay.WebsocketMessage` | relay/src/session.rs:286-332 | Drop, queue or become the pump; on failure the flag is dropped and the session closed |
| `Pump.Relay.PumpAll` | relay/src/session.rs:376-391 | Driving until nothing is pending ends where one drive of the step machine ends: the re-check never finds work |
| `Pump.Relay.Drive` | relay/src/session.rs:395-553 | Handshake, header and data phases in order; it comes back only when closed or with nothing pending |
| `Pump.Relay.DataLoop` | relay/src/session.rs:503-531 | The record loop upstream, with the session free to change at both of its awaits |
| `Pump.Relay.ChunkLoop` | relay/src/session.rs:610-627 | The plaintext loop upstream |
| `Pump.Relay.HandleUdpFrames` | relay/src/session.rs:810-846 | Packet by packet over one buffer, a trailing partial packet dropped |
| `Pump.Relay.Await` | relay/src/session.rs:296-314 | What other invocations may do while the pump is suspended |
| `Inbound.Inner.TakeRecord` | relay/src/session.rs:161-176 | A complete record is popped and the read nonce advanced, or nothing changes |
| `Inbound.Inner.Compact` | relay/src/session.rs:181-191 | Only the consumed prefix is dropped |
| `Inbound.Inner.Pending` | relay/src/session.rs:200-217 | True exactly if the phase can use what is buffered, a malformed header counting as work |
| `Inbound.Inner.Enqueue` | relay/src/session.rs:296-314 | Exactly one invocation becomes the pump, the others append |
| `Inbound.Reframe` | relay/src/session.rs:161-191 | Every split of a byte stream into frames yields the records of the whole stream in order, the i-th under read nonce i, and meets a malformed header behind the same record |
| `Records.FragmentedRecords` | relay/src/session.rs:161-176 | Frames that carry well-formed records give back exactly those records |
| `Records.DeframeConserves` | relay/src/session.rs:161-176 | Records and remainder are the stream: no byte is lost |
| `Records.DeframeWire` | relay/src/session.rs:161-176 | Framing inverts the concatenation of well-formed records in front of any further bytes |
| `Records.DeframeExtends` | relay/src/session.rs:161-176 | More bytes never change the records already found, nor a malformed header |
| `Records.HeaderRoundTrip` | relay/src/enc.rs:159-176 | A written header reads back exactly for lengths 17 to 16640 |
| `Records.HeaderCanonical` | relay/src/enc.rs:159-176 | Only the written header decodes to a length |
| `Nonce.IncreaseNonce` | relay/src/enc.rs:67-75 | The in-place loop is big-endian increment |
| `Nonce.SuccessorValue` | relay/src/enc.rs:67-75 | Its value is one more, and zero only behind the last of the 2^96 values |
| `Nonce.NoncesDistinct` | relay/src/enc.rs:67-75 | Two counts below 2^96 are different nonces |
| `Vless.ParseVlessHeader` | relay/src/vless.rs:230-339 | The position-advancing parser computes the parse function |
| `Vless.ParsedIsWire` | relay/src/vless.rs:230-339 | What was consumed is the encoding of a legal header, and the request is what its fields spell: command, port, the host's octets or name, and the way its UUID stands for |
| `Vless.HeaderReads` | relay/src/vless.rs:230-339 | Every legal header is recognised as what it spells, whatever follows it |
| `Vless.EgressExactly` | relay/src/vless.rs:193-222 | The table of payloads: 0 is direct with any port; 1, 2 and 3 with a port of their own are a plain proxy, SOCKS5 and HTTP at the payload's address without credentials; everything else is refused |
| `Vless.ParseStable` | relay/src/vless.rs:230-339 | Every extension of a parsed buffer gives the same request and length |
| `Vless.ParseExact` | relay/src/vless.rs:230-339 | The consumed bytes alone give the same parse |
| `Vless.ShorterPrefixFails` | relay/src/vless.rs:230-339 | Every shorter prefix fails |
| `Vless.LongFailureIsFinal` | relay/src/session.rs:470-489 | A failing buffer of 533 or more bytes fails under every extension, so the 1024-byte cutoff rejects nothing that could become valid |
| `Vless.LongestHeader` | relay/src/vless.rs:230-339 | 533 bytes is reached |
| `Vless.FragmentationIrrelevant` | relay/src/session.rs:558-583 | Appending fragments and retrying gives the outcome of the whole stream |
| `Text.PushU8Dec` | relay/src/vless.rs:73-89 | The stack buffer holds the decimal notation |
| `Text.DecimalReads` | relay/src/vless.rs:73-89 | Decimal notation determines the number |
| `Text.DecimalExactly` | relay/src/vless.rs:73-89 | A string of digits without a leading zero is the decimal notation of exactly the number it spells digit by digit |
| `Text.DottedReads` | relay/src/vless.rs:277-295 | The dotted text has four pieces between dots, and piece k spells octet k |
| `Text.BracketedReads` | relay/src/vless.rs:297-312 | The bracketed text has eight groups between colons, and the digits of group k spell bytes 2k and 2k + 1 |
| `Handshake.WsReader.ReadExact` | relay/src/wsio.rs:36-44 | All bytes or none, and the cursor moves only with all |
| `Handshake.ReadClientHello` | relay/src/enc.rs:282-356 | The reads of the handshake, in order, decide what the function on the buffer decides |
| `Handshake.HelloReads` | relay/src/enc.rs:282-381 | Every legal clientHello is read, whatever follows it: IV, public key with the top bit clear, and under the nonces 1 to 4 the sealed length, keys, padding length and padding. What goes on is the first 1216 bytes of the opened keys, the agreed secret, and the end of the hello |
| `Handshake.HelloIsWire` | relay/src/enc.rs:282-381 | Nothing else is read: every hello that was read is such a one, with these contents |
| `Handshake.RefusedForGood` | relay/src/enc.rs:282-356 | A refused buffer is neither the beginning of a legal hello nor begins with one |
| `Handshake.HelloMonotone` | relay/src/enc.rs:282-356 | A decision on a buffer is the decision on every longer one |
| `Handshake.ShorterHelloWaits` | relay/src/enc.rs:282-356 | Every prefix short of a complete clientHello asks for more |
| `Handshake.HandshakeReplay` | relay/src/session.rs:413-449 | Every fragmentation of a clientHello gives the one-shot outcome, with the leftover extended |
| `Handshake.SealServerHello` | relay/src/enc.rs:397-435 | Ticket, padding length and padding body use the write nonces 1, 2 and 3 for every padding |
| `Download.RelayDownload` | relay/src/datapath.rs:152-264 | For every chunking, ready or pending poll and failure, the sealed plaintexts are a prefix of the target's bytes, and all of them at the end of the stream or when waiting |
| `Download.SendRecord` | relay/src/datapath.rs:124-138 | The staging buffer sends header and ciphertext of this record, nothing of an earlier one |
| `Download.Coalesce` | relay/src/datapath.rs:101-121 | One chunk is passed on, several are concatenated in order |
| `Download.SendBatch` | relay/src/datapath.rs:229-258 | A batch becomes records of 1 to 16384 bytes under consecutive nonces |
| `Download.FramesAreWire` | relay/src/datapath.rs:124-138 | The frames are well-formed records |
| `Download.DownloadReads` | relay/src/datapath.rs:152-264 | However the network cuts the frames, the client reads back every plaintext under its nonce |
| `Connect.HttpConnect` | relay/src/egress.rs:184-215 | For every chunking the tunnel opens exactly on a header within the scan buffer whose status line reads 200 to 299 and before whose end no chunk is empty: an empty chunk there refuses the tunnel. Leftover and coming reads are the bytes behind that header |
| `Status.CodeReads` | relay/src/egress.rs:200-207 | Every 16-bit code behind a version and a space is read back from its decimal notation, whatever follows white space |
| `Status.CodeOfWord` | relay/src/egress.rs:200-207 | The code is what the second word says as a decimal number of 16 bits, with at most a plus sign, and 0 if it says none |
| `Connect.FindInPrefix` | relay/src/egress.rs:218-220 | The first CRLFCRLF of a prefix is the first of the whole |
| `Connect.Conn.PollRead` | relay/src/conn.rs:165-213 | Fits, rest and the next chunk are accounted for at every poll |
| `Connect.Conn.HandleData` | relay/src/conn.rs:153-162 | What does not fit the caller is stashed |
| `Connect.Conn.TakeBuffered` | relay/src/conn.rs:126-137 | The stash is taken once |
| `Connect.TunnelRaw` | relay/src/session.rs:666-690 | Behind the VLESS response the client receives exactly what the proxy sent behind its header, once each and in order |
| `Downlink.TunnelSealed` | relay/src/session.rs:743-787 | The same through response record, leftover record and download loop under one run of nonces |
| `Downlink.ReadableExactly` | relay/src/enc.rs:244-257 | A record sealed from a plaintext of any length has a header the client accepts exactly for 1 to 16624 bytes |
| `Downlink.LongLeftover` | relay/src/session.rs:768-770 | A 2xx header with more than 16624 bytes behind it in one chunk: the record of the leftover is not readable |
| `Downlink.LongChunkAccepted` | relay/src/egress.rs:184-215 | There is such a chunk for every body: behind any version, and with a header of at most 256 bytes, the tunnel opens on a bare header exactly if its code is 200 to 299 |
| `Downlink.BehindIsStream` | relay/src/session.rs:774-780 | The reads the download loop takes over are the rest of the same stream |
| `Calendar.FormatRfc7231` | relay/src/apache_mock.rs:99-141 | The subtraction loops stop at the valid civil time the timestamp counts to |
| `Calendar.UnixUtcIsCivil` | core/src/config.rs:780-799 | The closed form yields that civil time too |
| `Calendar.CalendarsAgree` | core/src/config.rs:780-799 | Both give the same year, month, day, hour, minute and second for every timestamp |
| `Calendar.UnixUtcInverts` | core/src/config.rs:780-799 | The closed form inverts the Gregorian count of seconds |
| `Calendar.TimestampInjective` | relay/src/apache_mock.rs:99-141 | No two civil times share a timestamp |
| `Calendar.PrintedWeekday` | relay/src/apache_mock.rs:133 | The printed weekday is right exactly if whole weeks precede the month |
| `Calendar.WeekdayOffInFebruary1970` | relay/src/apache_mock.rs:133 | 1970-02-01, a Sunday, is printed as a Thursday |
| `Sha256.HashPieces` | relay/src/sha256.rs:178-182 | For every split of a message below 2^61 bytes into updates, the digest is the FIPS 180-4 hash |
| `Sha256.Hasher.Update` | relay/src/sha256.rs:65-94 | State and buffer stay the hash of the whole blocks seen and the bytes behind them |
| `Sha256.Hasher.Finalize` | relay/src/sha256.rs:96-118 | One or two closing blocks give the hash of everything seen |
| `Sha256.ProcessBlock` | relay/src/sha256.rs:122-176 | The in-place block function is the compression of section 6.2.2 |
| `Sha256.Begins` | relay/src/sha256.rs:99-109 | What finalize appends is the padding of section 5.1.1, in one block or two |
| `Sha256.SourceIsStandard` | relay/src/sha256.rs:15-42 | The word functions are those of section 4.1.2 |
| `Sha256.AbsorbFull` | relay/src/sha256.rs:76-79 | Hashing a full buffer empties it |
| `Fips.ConstantsAreRoots` | relay/src/sha256.rs:3-12 | The tables are the first 32 fractional bits of the cube and square roots of the primes |
| `Fips.HashAppend` | relay/src/sha256.rs:82-87 | Hashing block by block is hashing the concatenation |
| `Fips.PadZerosLeast` | relay/src/sha256.rs:99-109 | The number of zero bytes is the standard's |
| `Fips.AgreeHash` | relay/src/sha256.rs:178-182 | Word arithmetics that agree give the same hashes |
| `Hmac.HmacSha256` | relay/src/hmac.rs:3-29 | The streaming code computes the HMAC of RFC 2104 over SHA-256, for long and short keys |
| `Hmac.HkdfExpand` | relay/src/hmac.rs:35-41 | The one-block expand of RFC 5869 |
| `UuidCodec.Encode` | sub/src/codec.rs:71-96 | The loops produce nonce, masked plaintext and truncated tag |
| `UuidCodec.DecodeWithContext` | relay/src/codec.rs:161-193 | Tag first, then the unmasked payload |
| `UuidCodec.ConstantTimeEq` | relay/src/codec.rs:101-110 | Accumulating differences is equality |
| `UuidCodec.RoundTrip` | relay/src/codec.rs:157-193 | The relay decodes what the subscription worker encodes |
| `UuidCodec.OnlyEncodedDecode` | relay/src/codec.rs:161-193 | A UUID decodes to a payload exactly if it is the encoding of it under its own nonce |
| `UuidCodec.AcceptsExactly` | relay/src/codec.rs:161-176 | A UUID is accepted exactly if its last five bytes are the first five of the HMAC over all the others, under the MAC key or, with a context, under the HMAC of the context |
| `UuidCodec.PayloadUnmasked` | relay/src/codec.rs:121-193 | Byte for byte, type, address and port (high byte first) of an accepted UUID are its masked part XORed with the HMAC of the nonce and a zero byte under the encryption key |
| `UuidCodec.KeysByBytes` | relay/src/codec.rs:112-118 | Salt and both labels of the one-block key derivation, byte by byte |
| `UuidCodec.FormatUuid` | sub/src/encoding.rs:26-37 | The 8-4-4-4-12 text |
| `UuidCodec.TextLayout` | sub/src/encoding.rs:26-37 | In the text the digits of byte k stand where the 8-4-4-4-12 layout has them, high digit first, and dashes between the groups |
| `UuidCodec.FromStr` | relay/src/codec.rs:66-97 | The nibble-by-nibble scan accepts exactly 32 hexadecimal digits with dashes anywhere |
| `UuidCodec.TextRoundTrip` | relay/src/codec.rs:66-97 | Printed by one crate, parsed by the other to the same bytes |
| `UuidCodec.New` | relay/src/codec.rs:112-118 | Both keys come from the secret by HKDF |
| `Subscription.BuildSubscription` | sub/src/lib.rs:705-789 | Fails exactly on empty lists, a wrong nonce count or a host that is not IPv4; line i decodes under the key of relay i mod n to entry i |
| `Subscription.LineReaches` | relay/src/vless.rs:193-339 | End to end: a legal header that carries the UUID of line i, read by relay i mod n, leads through a plain proxy at entry i's address and port; it is refused exactly if that port is 0 |
| `Subscription.LabelReads` | sub/src/lib.rs:753 | The text of a label determines country and counter |
| `Subscription.LabelsDistinct` | sub/src/lib.rs:746-753 | No two lines of a subscription carry the same label text, whatever the countries are called |
| `DecodeCache.DecodeCache.DecodePayload` | relay/src/vless.rs:168-188 | After any calls the answer is that of plain decoding |
| `DecodeCache.DecodeCache.Get` | relay/src/vless.rs:142-148 | A hit moves to the front and answers as decoding would |
| `DecodeCache.DecodeCache.Insert` | relay/src/vless.rs:150-158 | A new key goes to the front, the seventeenth is dropped |
| `DecodeCache.RecencyIsByLastCall` | relay/src/vless.rs:122-133 | The order kept is that of each decodable key's last call, latest first |
| `DecodeCache.HitIsTouch` | relay/src/vless.rs:142-148 | Moving within sixteen entries is moving within the unbounded list |
| `DecodeCache.MissIsTouch` | relay/src/vless.rs:150-158 | Dropping the last is right even if the key is further down the unbounded list |
| `Country.MergeAllIsLeast` | sub/src/proxyip.rs:183-188 | The merged country is the least code reported exactly unless "XX" is the least and was not reported last |
| `Country.OrderIrrelevant` | sub/src/proxyip.rs:183-188 | Every order of the reports gives the least code exactly if "XX" is not the least or is the only one |
| `Country.UnknownOverwritesLaterCode` | sub/src/proxyip.rs:183-188 | Two orders of "XX" and "ZA" that end differently |
| `Country.NormalizeFixes` | sub/src/proxyip.rs:380-400 | The fixed points of normalisation are exactly the codes, so it is idempotent |
| `Country.NameReads` | sub/src/proxyip.rs:380-400 | Each of the sixteen names of the table, in any letter case and between white space, is normalised to its code |
| `Country.LettersRead` | sub/src/proxyip.rs:396 | A code in any letter case and between white space is normalised to itself |
| `Country.OnlyWritten` | sub/src/proxyip.rs:380-400 | Nothing else is normalised to a code |
| `Country.ParseFilter` | sub/src/lib.rs:623-641 | Each code once in order of first mention; fails exactly on a piece that is no code or on none at all |
| `Country.PieceReads` | sub/src/proxyip.rs:402-413 | Two letters in any case and between white space are read as themselves in capitals, UK as GB |
| `Country.OnlyLettersRead` | sub/src/proxyip.rs:402-413 | Nothing else is read as a code |
| `Country.PiecesCut` | sub/src/lib.rs:626-628 | A filter is cut at every comma, plus sign and white space character |
| `Country.PieceWhole` | sub/src/lib.rs:626-628 | And nowhere else: a text without one is one piece |
| `Country.DedupInOrder` | sub/src/lib.rs:632-635 | Codes are kept in the order of their first mention |
| `ProxyIp.Ingest` | sub/src/proxyip.rs:145-199 | Accepted plus duplicates are the supported ports of the records not rejected, and endpoints are unique |
| `ProxyIp.PortsMeaning` | sub/src/proxyip.rs:164-176 | Each supported port of the record once, in increasing order |
| `ProxyIp.UsableExactly` | sub/src/proxyip.rs:415-432 | An address is usable exactly if it lies in none of the reserved blocks, listed as ranges of octets |
| `ProxyIp.SupportedExactly` | sub/src/proxyip.rs:376-378 | The supported ports are the six listed |
| `ProxyIp.AllOffersExactly` | sub/src/proxyip.rs:145-199 | A feed offers exactly the endpoints its records report: an address that is usable, a supported port among theirs, under the normalised country |
| `ProxyIp.HeldCountry` | sub/src/proxyip.rs:178-199 | An endpoint is held exactly if reported, under the merge of its reports |
| `ProxyIp.HeldCountryIsLeast` | sub/src/proxyip.rs:183-188 | The exact condition under which that is the least code reported |
| `Reordering.RecordOrderIrrelevant` | sub/src/proxyip.rs:145-199 | Every order of the records of a feed holds an endpoint under the least code reported for it, exactly if that is not "XX" or "XX" is the only one |
| `Reordering.SameEndpoints` | sub/src/proxyip.rs:145-199 | Which endpoints are held depends on no order |
| `Groups.PrepareCompactGroups` | sub/src/proxyip.rs:434-470 | Grouping, then taking turns under both caps |
| `Groups.CappedFair` | sub/src/proxyip.rs:446-469 | Each list is a prefix of the country's full list of at most 256, and countries differ by at most one unless the shorter is exhausted |
| `Groups.CappedTotal` | sub/src/proxyip.rs:446-469 | The total is the lesser of 8192 and what the countries may contribute |
| `Groups.PushList` | sub/src/proxyip.rs:440-442 | A push appends to one list and leaves the others alone |
| `RoundRobin.Fair` | sub/src/proxyip.rs:309-338 | Taking turns: a group behind another has nothing left or is behind by one |
| `RoundRobin.DealSize` | sub/src/proxyip.rs:309-338 | As many elements as there are, up to the maximum |
| `RoundRobin.DealOrder` | sub/src/proxyip.rs:309-338 | Strictly by depth and then group, so nothing comes twice |
| `RoundRobin.PicksPrefix` | sub/src/proxyip.rs:446-469 | At every point of the loops a prefix of the full order has been dealt |
| `Dataset.ValidateForUse` | sub/src/proxyip.rs:230-269 | Accepts exactly the fit datasets |
| `Dataset.FromSource` | sub/src/proxyip.rs:116-228 | Fails exactly on an empty feed, fewer than ten endpoints or a zero timestamp; the closing check rejects nothing built; endpoints are stored once, the revision is that of the groups, and date, age and tag are those handed in |
| `Revision.RevisionFor` | sub/src/proxyip.rs:472-482 | The first twelve bytes, in hexadecimal, of the SHA-256 of the compact JSON text of the groups |
| `Dataset.ValidatePromotion` | sub/src/proxyip.rs:343-363 | Both datasets fit and no suspicious drop, and nothing else |
| `Dataset.QuarterKept` | sub/src/proxyip.rs:349-361 | Saturation does not change the threshold of a quarter from a hundred entries on |
| `Selection.Select` | sub/src/proxyip.rs:275-340 | The deal over the chosen countries, each through its own rotation |
| `Selection.ChosenMeaning` | sub/src/proxyip.rs:286-307 | The requested countries that exist, or all of them rotated, the preferred first; each once |
| `Selection.ChosenInOrder` | sub/src/proxyip.rs:286-307 | Requested countries stay in the order asked for; without a request the countries stand in order around the circle, from the preferred one or from where the seed points |
| `Selection.CursorFollowsSeed` | sub/src/proxyip.rs:319-322 | The first country starts where the low 32 bits of the seed say, and each further one as the country before it would with a seed larger by the constant, wrapping at 2^64 |
| `Selection.ShownAt` | sub/src/proxyip.rs:319-331 | The endpoint dealt to a country at a depth is the one that far behind its cursor, around the list |
| `Selection.SelectedSize` | sub/src/proxyip.rs:309-338 | As many endpoints as asked for, if the countries hold as many |
| `Selection.SelectedDistinct` | sub/src/proxyip.rs:316-331 | No endpoint twice, for every 64-bit seed |
| `Selection.SelectedListed` | sub/src/proxyip.rs:325-330 | Each is stored under the country it is labelled with |
| `Selection.SelectedFair` | sub/src/proxyip.rs:309-338 | Chosen countries differ by at most one unless the one behind is exhausted |
| `Selection.PlaceInjective` | sub/src/proxyip.rs:319-325 | The rotation visits every place once |
| `Serving.SelectionPromised` | sub/src/proxyip.rs:275-340 | From a feed's groups: as many endpoints as asked for if there are as many, none twice, each held under its label and in a country asked for, countries within one of each other unless exhausted |
| `Serving.Serve` | sub/src/lib.rs:100-138 | The same end to end, from the records of a feed and the text of a filter, for every seed; it serves exactly if the feed is accepted, the filter parses, and the countries asked for hold something; an empty selection is not served |
| `KnownGood.OnceLoadedAlwaysLoaded` | sub/src/lib.rs:271-295 | Over every run of interleaved refreshes with failing reads, fetches and writes and crashes between writes, loading keeps succeeding once it has |
| `KnownGood.NeverLostExactly` | sub/src/lib.rs:323-382 | A good generation survives every run exactly if the active slot is absent or valid at the start |
| `KnownGood.FatalRunLoses` | sub/src/lib.rs:367-375 | The run that copies an invalid active text over the only good generation |
| `KnownGood.SlotsStayGood` | sub/src/lib.rs:323-382 | Two slots each absent or valid stay so over every run |
| `KnownGood.PromotionKeepsQuarter` | sub/src/lib.rs:358-382 | With one refresh at a time and reads that succeed, a promotion leaves the replaced generation in the previous slot and has at least a quarter of its entries, from a hundred on |
| `KnownGood.Store.RefreshProxyIp` | sub/src/lib.rs:323-382 | Undisturbed, a refresh returns a dataset exactly if a candidate fit to follow the known generation was fetched, or revalidated, and both writes were confirmed; then the active slot holds its text and the previous slot the raw text that was known, if any. In every other case it returns nothing, and each slot is stated, write by write |
| `KnownGood.Store.LoadKnownGood` | sub/src/lib.rs:271-295 | The active slot, or else the previous one |
| `KnownGood.ThroughIsRun` | sub/src/lib.rs:323-382 | An undisturbed refresh is one of the runs |
| `Apply.Execute` | core/src/deploy.rs:482-611 | Commits exactly if the plan fits the world and every call made is answered truthfully; the journal of its steps is true. A committed plan has uploaded one version per target, in order, of its own metadata, each live unless a later one went to the same Worker, and its KV namespace is settled; if it names no target and no credential twice, the whole plan is released. If a step fails, every pending action is popped and has its own journal record. Unless the plan creates one Worker twice, each can be undone in its turn, none on a resource that is gone; and if the compensating calls work, the world is exactly the start but for the traffic of promoted and the workers.dev state of switched Workers, and it is the start exactly if no promotion met split traffic and no switch an unreadable state that was on. If the outside refuses nothing any more, no failure is reported exactly if every action can be undone in its turn |
| `Apply.Attempt` | core/src/deploy.rs:518-562 | Relays and subscription Worker in order up to the first call that fails; without a failure, and if the plan names no target and no credential twice, every target is released |
| `Apply.ApplyRelay` | core/src/deploy.rs:614-802 | The steps of one relay; if all work one version was uploaded, with the Worker's secret if it is new, and is live; it is exposed, its secrets are stored, and no other target is touched |
| `Apply.ApplySub` | core/src/deploy.rs:841-1115 | The steps of the subscription Worker; if all work one version was uploaded, bound to the node topology, its token if it is new, and the KV namespace: that of a linked Worker, or for a new one the namespace found under the title, or else one created under it. It is live, scheduled and exposed, and the topology rotated last |
| `Apply.ApplyEndpoint` | core/src/deploy.rs:1166-1300 | The steps of workers.dev and Custom Domain: switched as wanted if the state could be read, and attached |
| `Feasible.DeployedExactly` | core/src/deploy.rs:482-576 | For every plan, world and outside: a deployment works out exactly if the plan fits the world (linked Workers and readable secrets are there or made earlier in the plan, new ones have their values, each hostname is free in its account or already the Worker's own) and every call made is answered truthfully (not refused, listings name what is there, new identifiers name nothing yet) |
| `Feasible.PossibleCanWork` | core/src/deploy.rs:482-576 | Every plan that fits the world can be deployed: such answers exist |
| `Journal.DeployedTruthful` | core/src/deploy.rs:320-335 | Wherever a deployment ends, committed or at the call that failed, its journal is true: every new namespace, Worker and domain binding, every change of a Worker there was, every credential written and every version uploaded is on record as such; and every namespace, Worker or domain on record is there, and no namespace on record as created was there before |
| `Releases.PlanRuns` | core/src/deploy.rs:518-562 | A deployment that works out has uploaded one version per target, in order, each of its own metadata and live unless a later one went to the same Worker |
| `Releases.SubRuns` | core/src/deploy.rs:841-1115 | The version of the subscription Worker carries the topology, the token of a new one, and the namespace that was settled |
| `Releases.KvRuns` | core/src/deploy.rs:866-905 | For a new subscription Worker the namespace is the one found under the title, with all namespaces as they were, or else a new one under that title beside them; for a linked one it is the known one and nothing changes |
| `Releases.RelayRuns` | core/src/deploy.rs:614-802 | The version of a relay carries the secret of a new one, and is live |
| `Restoration.RestoredExactly` | core/src/deploy.rs:2013-2027 | Take a plan that works out if nothing fails, and that may name a Worker more than once. At every failure point all pending actions can be undone in turn and lead back to the start, exactly if it creates no Worker twice, all traffic of each Worker it updates goes to one version, and workers.dev can be read wherever it is on and stays on |
| `Restoration.RolledBackExactly` | core/src/deploy.rs:337-452 | Wherever a deployment fails that creates no Worker twice, all pending actions can be undone one after the other, and the world they lead back to is named field by field, even if it updates one Worker several times |
| `Restoration.HarmlessRestored` | core/src/deploy.rs:518-576 | A harmless plan that creates no Worker twice is restored from every failure, even if it could never work out |
| `Restoration.HarmfulLost` | core/src/deploy.rs:1174-1197 | Any other such plan that can work out is not restored if its last call fails, although every compensating call works |
| `Restoration.DoubleCreationStuck` | core/src/deploy.rs:1930-1952 | A plan that creates one Worker twice, which the check by account label lets through, and can work out: if its last call fails, the Worker is to be deleted twice and the second deletion finds nothing |
| `Restoration.DeletedOnce` | core/src/deploy.rs:337-385 | No compensation recreates a Worker, so two pending deletions of one can never both be carried out |
| `LostUpdates.SplitTrafficIsLost` | core/src/deploy.rs:2013-2027 | The update of a Worker with split traffic that fails behind its promotion: all compensations run, and one version is left with all the traffic |
| `LostUpdates.UnreadStateIsLost` | core/src/deploy.rs:1174-1197 | The update of a Worker whose workers.dev is on and cannot be read, failing behind the switch: all compensations run, and workers.dev is left off |
| `LostUpdates.LoseTraffic` | core/src/deploy.rs:482-611 | The code on the first of these: not committed, no failures reported, another world |
| `LostUpdates.LoseState` | core/src/deploy.rs:482-611 | The code on the second |
| `Rollback.ResidueIsStart` | core/src/deploy.rs:386-404 | The rolled-back world is the start exactly if every promoted Worker had one version with all the traffic and every switched one was seen as it was |
| `Rollback.StepKeeps` | core/src/deploy.rs:614-802 | Behind every step, undoing what is pending leads to the rolled-back world of what has been promoted and switched so far, however often a Worker was promoted or switched |
| `Programs.RunKeeps` | core/src/deploy.rs:518-576 | So it does wherever a list of calls fails that creates nothing twice and reads before it updates |
| `Programs.PlanNeat` | core/src/deploy.rs:518-562 | Plans that create no Worker twice, under fresh identifiers, are such lists |
| `Deploy.Transaction.Compensate` | core/src/deploy.rs:337-452 | Every compensation is popped once and journalled once under its own resource, credentials by their reference, in reverse; if none failed, all are undone |
| `Deploy.Transaction.Record` | core/src/deploy.rs:320-335 | One journal record and at most one compensation |
| `Saga.Extends` | core/src/deploy.rs:320-345 | A step and the compensation that takes it back extend the chain |
| `Saga.ExtendsDoomed` | core/src/deploy.rs:730-775 | On a Worker this transaction created, any later change is covered by its deletion |
| `Saga.MarkStays` | core/src/deploy.rs:386-404 | What no pending action overwrites on a Worker is still there when all are undone |
| `Saga.MarkVanishes` | core/src/deploy.rs:386-404 | What an earlier pending action overwrites is not, so that a further switch leaves nothing behind |
| `Migration.RestoredExactly` | core/src/config.rs:611-640 | However a migration fails, and even if a reference is written twice, the store is restored, if the restoring calls work, exactly if the first write to each reference finds nothing, or reads what is there and overwrites no empty secret |
| `Migration.EntryIsLost` | core/src/config.rs:629-640 | Any other entry is lost in a run that fails right behind the write to it |
| `Migration.Store.Migrate` | core/src/config.rs:462-609 | Writes in order, unwound at the first failure or if the new file cannot be installed, whatever reads, writes and restoring calls do. It succeeds exactly if the file can be installed and every write works; then each written reference holds its last value and the others are untouched |
| `Migration.WorksExactly` | core/src/config.rs:611-627 | The writes go through exactly if each value is not empty and no write fails |
| `Migration.SuccessMigrates` | core/src/config.rs:462-609 | Then every written reference holds its last value, and no other has changed |
| `Migration.Store.StoreCredential` | core/src/config.rs:611-627 | What was read before is journalled with a successful write and put back behind a failed one; a read that fails counts as nothing |
| `Migration.Store.Rollback` | core/src/config.rs:629-640 | Last entry first, and no further than the first that cannot be put back |
| `Migration.AdvanceRestores` | core/src/config.rs:611-627 | Each write, successful or failed cleanly or not, leaves the journal a way back |
| `Migration.UnwindOverwrites` | core/src/config.rs:629-640 | Unwinding does not depend on what is under a reference the journal names |

## Left out

- Hashing of keys and contexts (BLAKE3), key agreement, AES-GCM and WebCrypto buffer aliasing: arbitrary functions here.
- Parsing of JSON, TOML and URLs, and serialisation of datasets beyond the text a revision is computed from: the model starts from parsed records and takes stored texts to read back as what was written or not to parse at all.
- Printing and parsing of dotted IPv4 text by the standard library in the subscription worker: the parser is a parameter of `Subscription.BuildSubscription`, and datasets hold addresses as numbers.
- Random WebSocket paths, percent encoding, TLS parameters and the rest of a subscription line: configuration that does not depend on the entry.
- Timers, backpressure pauses, performance logs and the apache-like static pages other than their date.
- Hostname checks, optimised entry addresses, bundle packaging, the Cloudflare client, the keyring, the network manager, the wizard and the user interfaces: plumbing and simple validation.
- The SOCKS5 exchange (relay/src/egress.rs:90-163): its reply with a long domain address indexes past its buffer, and nothing else depends on it.
- What a UDP target answers and the fresh socket per packet: a reply is an arbitrary string, passed on framed.
- A status line of a CONNECT answer that is not valid UTF-8: the code does not check it (relay/src/egress.rs:200), and the model scans its bytes as if it were.
- A chunk count above 2^32 bytes in one batch of the download loop: lengths are unbounded here.
- A WebSocket send that fails in encrypted mode counts as a failure of the key import or the seal before it: both end the session the same way. In plaintext mode the sends of the response, the leftover and the replies are taken to work.
- Fetch, size limit and HTTP status handling of the feed: a refresh sees an error, "not modified", or a feed.
- `is_stale` and the failure record of a refresh: neither touches the two slots.
- What happens to the journal when a committed deployment cannot be written to the local configuration: everything created is retained, and nothing is undone.
- Version uploads without traffic stay behind after a rollback, as in the code, and are not part of the state that is restored.
- Apply.Execute: assumes that each remote call takes effect wholly or not at all, which a Worker creation followed by a failing version listing (core/src/cfapi.rs:473-513) does not meet; that new Workers do not exist, as the check before the transaction found (core/src/deploy.rs:1880-1928); and that the fresh random identifiers of new deployments name nothing yet.
- Restoration.RestoredExactly: takes it that whether the workers.dev state of a Worker can be read does not change during one deployment, which reads it once; warnings about zones and DNS records that could not be listed are not distinguished from listings without a conflict.
- Migration.RestoredExactly: is about runs in which the calls that put something back work; what happens if one does not is stated by `Migration.Store.Rollback`, which stops there.
- SessionProgress.UdpServed: does not say where the payload is cut into buffers, which follows the records or, in plaintext, the arrival of frames; a partial packet at the end of a buffer is dropped, as in the code (relay/src/session.rs:820-828).
- SessionQueries.QueriesInOrder: speaks of the packets handed to the query of the session's one target; what becomes of them on the network is not modelled.
- SessionClaims.UploadLinear: speaks of the bytes handed to the target's writer, in the order of the writes; whether the target's network delivers them is not modelled.
- Dataset.FromSource: takes feeds whose records can be counted in 32 bits, as the 20 MiB limit on the source text ensures.
