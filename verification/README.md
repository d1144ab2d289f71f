# Verification of gophertunnel's connection protocol and wire codecs

This project models two parts of the library in Dafny and proves properties of the model:

* the Bedrock login of `minecraft/conn.go`: a dialer and a listener that talk over two channels, with their expected
  packet sets, the switch-on of compression and encryption, the resource pack transfer with one goroutine per pack, the
  double-buffered send queue, the queue of deferred packets and the admission counter of a listener group;
* the wire formats: NBT in its four encodings, varints, the fixed-width array readers, bitsets, and the packet fields
  built with the `IO` combinators, up to items, stack request actions, data store values and entity metadata.

`dafny verify dfyconfig.toml` checks everything.

## How the model is built

**The login** (`Packs`, `PackOrders`, `PackChoice`, `Session*`, `Solo*`). A `Conn` holds the fields that the handlers
change: the expected IDs, the flags, the queue of packs, the send buffer, the modes of encoder and decoder, and the operations its
goroutines have left to do. A handler is the list of operations it performs (write, flush, expect, switch a mode, close a
channel), and every operation is one step. A `State` is two connections and the batches on their way. Any sequence of
actors is a schedule: either side's reader, its flusher, the goroutine that dials or serves, every download goroutine and
the goroutine that saw no pack left. Go's choice among the keys of a map is a parameter. `Safety`, `Completion` and
`Termination` speak about all schedules and all configurations of packs, verdicts of the dialer, chunk sizes and orders;
`SessionFlushers` takes the flusher of either side away and says exactly when logins still succeed; `Solo*` replaces one
side by an arbitrary peer.

The proof gives each side a script: the dialer's and the listener's packets in the only order in which they can be
written. The invariant says of each side where its operations will lead it (`Settle`), whatever the interleaving, and that
what is buffered, on the wire and in an inbox is the part of the script between what was written and what was handled.
`PackChoice` says by index over the announced packs what becomes of each, and `SessionOutcome` in the same terms which
logins succeed, and which packets are compressed and encrypted.

**Concurrency inside a connection** (`SendBuffer`, `Deferred`, `Admission`). The send buffer and the queue of deferred
packets are classes over arrays, their critical sections are methods, and `Interleave` runs any sequence of them.

**NBT** (`Wire`, `Varints`, `WordBytes`, `Endian`, `Nbt*`). A `Tree` is a Go value together with one order of the keys of
each of its maps. `Encode` and `Decode` are the specification; `NbtEncoder` and `NbtDecoder` are the code's methods with their loops,
buffers and depth counters, proved to do what the specification says. The decoder's depth counter stays raised after a
list of bytes, ints or longs, so a compound the encoder accepts may be refused, and Go's order of its keys may decide
whether it is: `DecodeOfEncode` says exactly when for a tree, `EveryOrderReads` for a Go value.

**Packet fields** (`Fields`, `Shape*`, `Items`, `Requests`, `Metadata`, `Layouts`, `Bitsets`). A `Marshal` body serves
reading and writing. A `Shape` is such a body as a value; `Enc` and `Dec` are a writer and a reader running over it, `ShapeIO.IO.Marshal`
is the code that does both, and the theorems hold for every shape: what is written reads back (`ReadsBack`), reading
depends on what is read only (`ReadingPrefix`). Formats of the protocol are shapes, so theirs are instances.

**Which bytes** (`WordBytes`, `NbtLayout`, `ItemLayout`, `Actions`, `StackRequests`, `DataStores`, `MetadataLayout`). A
round trip holds of any format that loses nothing, so these modules say which format it is, without the definitions that
readers and writers share: digits of words and varints by division, NBT documents in each encoding by its name, and, for
datatypes with the fields of the Go structs, the bytes of every item, action, request, data store value and metadata
entry. Each of them is proved to be what is written and to be read as that value (`Layouts.Sends`, `SentIsRead`).

## Where the code differs from what one would expect

* `Decoder.unmarshalTag` raises `depth` for every list and lowers it only for lists that are not of bytes, ints or longs:
  `NbtOrders.LeakBreaksRoundTrip` gives a family of compounds that are written and not read back, and
  `NbtOrders.OrderMatters` a document that decodes and, written in another order of its keys, does not.
* `ensureOwned` takes the payload from the end of the copied packet; `Deferred.PayloadKeptIff` says when that is right.
* A fixed-width number is read with `Read`, not `io.ReadFull`: at the end of the input it takes what is there and leaves
  the rest of the reader's scratch buffer from an earlier field (`Fields.NumberIndependentIff`).
* `IntegerFunc` converts both ways: an ingredient's count survives only within 16 bits (`Requests.IngredientCount`), and an
  `ItemInstance` keeps 16 bits of its network ID (`Items.InstanceRoundTrip`). The comment on `StackNetworkID` says that 0
  is written for an empty stack; the code writes the field's value whatever the stack.
* `SliceLength` refuses a count above the bytes left, so slices of elements without bytes may be refused
  (`ShapeLimits.EmptyElements`).
* A dialer asks once for a UUID that is announced in two versions, and then misses one of them in the stack
  (`PackOrders.StackAcceptedIff`): every such login ends there (`SessionTheorems.Completion`).
* The goroutine of a download writes its requests without flushing them. With a negative flush rate a dialer that fetches
  packs may wait for ever (`SessionFlushers.FinishesIff`); `Flush` can only be called from outside once `Dial` has
  returned. Nothing else that either side writes needs a flusher.
* A `Bitset` without bits is written as a byte that its reader refuses (`Bitsets.BitsetRoundTrip`).

## Model

| member | source | states |
|---|---|---|
| `SessionTheorems.Safety` | minecraft/conn.go:670-1604 | After any schedule of readers, flushers, dialing, serving and download goroutines: every batch was decoded in the mode it was encoded in, no handler failed but that of a stack with a pack the dialer misses, the listener deferred nothing and the dialer only the three packets meant for its user, `spawn` was closed at most once, both sides wrote beginnings of their scripts, the pack counter is right, and neither encoder is about to change its mode while something is buffered |
| `SessionTheorems.Completion` | minecraft/dial.go:350-402 | A run in which nobody can move any more has spawned both sides, with every packet written and handled and every pack on the dialer complete, if the stack lists no pack the dialer misses; otherwise the dialer holds what it asked for and turned the stack down, and neither side is logged in: no interleaving deadlocks |
| `SessionTheorems.ChunksInOrder` | minecraft/conn.go:1285-1349 | In every run, a chunk the dialer takes is the k-th of a pack it asked for, the goroutine of that pack waits for it, and the buffer holds exactly the chunks before it |
| `SessionBound.Termination` | minecraft/conn.go:502-543 | No schedule lets the goroutines of a login move more often than 200 steps per packet and 400 more, so every fair run comes to the end that `Completion` describes |
| `SessionFlushers.FinishesIff` | minecraft/conn.go:248-261 | With flushers on any of the two sides: every run that cannot go on has spawned both sides, exactly if the dialer accepts the stack and has a flusher or no pack to fetch. `newConn` starts none for a negative flush rate |
| `SessionFlushers.Hang` | minecraft/conn.go:1285-1301 | With packs to fetch and no flusher on the dialer there is a run that ends with the first chunk request in its send buffer |
| `SessionFlushers.CanFinish` | minecraft/dial.go:350-402 | Where runs always finish, every run, however it was scheduled so far, has a continuation that spawns both sides |
| `SessionFlushers.PlainFinishesIff` | minecraft/conn.go:1000-1122 | Of any list of non-empty packs without behaviours, offered to a dialer without a cache in any order: logins succeed exactly if no UUID is listed in two versions, and the dialer has a flusher or there are no packs |
| `SessionOutcome.LoginsSucceedIff` | minecraft/conn.go:1000-1122 | With any callback and any cache: logins succeed exactly if the dialer has something of the name of every pack, said by index over packs and verdicts, and has a flusher or asks for no pack |
| `SessionFlushers.ServerWillFlush` | minecraft/conn.go:723-799 | In every run of any configuration, whatever the listener has buffered has a flush of the library's own ahead of it |
| `SessionRuns.Keeps` | minecraft/conn.go:670-760 | Any step of any actor from a state of the invariant leads to a state of it, but for the step in which the dialer turns the pack stack down |
| `SessionReach.Reaches` | minecraft/conn.go:670-760 | Every state of every run is a state of the invariant, or differs from one by the dialer's having failed at the pack stack |
| `SessionReach.TurnsDown` | minecraft/conn.go:1084-1096 | The dialer fails at the pack stack of every run that gets there, if the stack lists a pack that it neither ignores nor fetched nor had |
| `SessionClientSteps.ClientModes` | minecraft/conn.go:955-990 | The next batch the dialer takes was encoded in the mode its decoder is in, although compression and encryption are switched on while flushers run |
| `SessionClientSteps.SwitchIsDrained` | minecraft/conn.go:808-819 | When the dialer takes the packet after which its encoder changes its mode, nothing is left in its send buffer |
| `SessionOutcome.WireModes` | minecraft/conn.go:802-819 | In every run, of all batches on their way: exactly those of the request for and of the network settings are uncompressed, and on an encrypted connection exactly these, the login and the handshake of the listener are unencrypted |
| `SessionOutcome.EndModes` | minecraft/conn.go:1607-1645 | Where logins end with both sides spawned, both encode and decode encrypted if so configured and compressed otherwise, and the listener has authenticated the dialer |
| `SessionServer.HandlesMiddle` | minecraft/conn.go:1353-1399 | A chunk request inside a pack is answered with that chunk, and the listener waits for the next one |
| `SessionServer.HandlesEnd` | minecraft/conn.go:1239-1250 | The request for the last chunk of a pack is answered with it and with the data info of the next pack |
| `SessionServer.HandlesLast` | minecraft/conn.go:1382-1399 | The request for the very last chunk makes the listener expect the dialer's final response and nothing of the transfer |
| `SessionFetchSteps.FetchFinishes` | minecraft/conn.go:1285-1323 | A download goroutine ends with the pack's bytes in its buffer and takes one off the counter; exactly the one that sees zero goes on to announce that all packs are there |
| `SessionScripts.UpIsPath` | minecraft/conn.go:1254-1300 | The dialer's script holds, for every pack, one request for each of its chunks, in order, and none past the end |
| `SessionScripts.DownIsPath` | minecraft/conn.go:1125-1250 | The listener's script sends every requested pack once: its data info, then its chunks front to back |
| `SessionScript.PiecesConcat` | minecraft/resource/pack.go:203-232 | The chunks of an archive, put together, are the archive |
| `SessionScript.PiecesAreReads` | minecraft/resource/pack.go:209-232 | There are ceil(len / chunk) chunks, and `ReadAt` at k times the chunk size is the k-th of them |
| `Packs.SortLoop` | minecraft/conn.go:1000-1069 | The loop over the announced packs computes what is asked for, ignored, cached and counted; `PackChoice.SortMeaning` says pack by pack what that is |
| `PackChoice.SortMeaning` | minecraft/conn.go:1000-1069 | By index over packs, callback and cache: the names asked for are those of the packs that come first of their UUID with neither a refusal nor a cached pack of the same UUID, version and length; ignored are those refused before their UUID was asked for, cached those the cache has; each list is in the order of the announcement, and the counter is every pack less the ones not asked for |
| `PackChoice.LookupIsFirst` | minecraft/resource_pack_queue.go:40-58 | The pack found for a name, a UUID with a version or without, is the first listed one with it, and none is found exactly if there is none |
| `PackChoice.AcceptedIffCovered` | minecraft/conn.go:1084-1122 | Whatever the callback and the cache say, the stack is accepted exactly if for the UUID and version of every listed pack some pack was refused, or was cached without behaviours, or was asked for and is sent without behaviours |
| `Packs.SortCounts` | minecraft/conn.go:1000-1069 | At every point of the loop the counter is the packs not looked at yet plus those asked for, whatever is a duplicate, ignored or cached; each UUID is asked for once |
| `Packs.RequestGrantedIff` | minecraft/resource_pack_queue.go:40-58 | A request is granted exactly if every name in it, a UUID with a version or without, is a pack of the listener |
| `Packs.RequestHolds` | minecraft/resource_pack_queue.go:40-58 | A granted request for distinct UUIDs leaves the first pack of every name to be sent, and no other |
| `PackOrders.StackAcceptedIff` | minecraft/conn.go:1084-1122 | A dialer that downloads everything accepts the pack stack exactly when no UUID is listed in two versions |
| `PackOrders.PlainIsValid` | minecraft/resource_pack_queue.go:61-92 | Any list of non-empty packs without behaviours, any positive chunk size and any order of Go's map is a configuration the theorems cover |
| `SoloListener.ListenerSafety` | minecraft/conn.go:823-945 | Whatever packets a peer sends and whenever: logged in implies authenticated, authenticated implies an accepted login and active encryption unless it is disabled, `spawn` is closed at most once and after the login, and no chunk request is handled without a current pack |
| `SoloDialer.DialerSafety` | minecraft/conn.go:1517-1604 | Whatever packets a peer sends: `spawn` is closed at most once, and then packs info, pack stack, StartGame, item registry and chunk radius were handled in this order; neither a data info nor a chunk is handled without a queue |
| `SoloDownloads.ChunksInPlace` | minecraft/conn.go:1254-1349 | Whatever a listener sends: the buffer of every download is the chunks taken for it, in the order taken; every chunk but the last has the full size, so the k-th begins at k times the chunk size; and no more are stored than the size of the pack has |
| `SendBuffer.Sender.Append` | minecraft/conn.go:397-427 | A packet is appended to the live slice, in place or in a bigger array, and the arrays of the batch in flight, the live slice and the spare stay different ones |
| `SendBuffer.Sender.Detach` | minecraft/conn.go:515-528 | The swap puts the live slice in flight and the spare in its place, keeping every packet in one place and in order |
| `SendBuffer.Interleave` | minecraft/conn.go:397-543 | After any interleaving of writers, flushers and callers that use a slice again: what was encoded, is in flight and waits is what was written, each once, in the order of the writes; and the k-th packet was encoded at a turn behind its write, with the bytes it had then |
| `SendBuffer.UnchangedIff` | minecraft/conn.go:424-474 | A packet is encoded with the bytes it was written with exactly if `WritePacket` wrote it, or the caller of `Write` did not fill its slice again before the encoding, or last with the same bytes |
| `Deferred.EnsureOwned` | minecraft/packet.go:38-56 | An owned packet has the same bytes in an array of its own |
| `Deferred.PayloadKeptIff` | minecraft/packet.go:38-56 | The payload survives being owned exactly if it is the end of the packet, or longer than the packet |
| `Deferred.Queue.Look` | minecraft/conn.go:621-638 | The oldest deferred packet is taken, or the reader is told to wait |
| `Deferred.NoLostWakeUp` | minecraft/conn.go:642-666 | In every run: while packets are queued and no deferrer is between its unlock and its send, the reader is looking or its token is in the channel |
| `Deferred.Drains` | minecraft/conn.go:653-666 | From any point of any run, the sends that are due, at most one wake-up and one look per packet read everything that arrived, in order: the reader is never stuck |
| `Deferred.InOrder` | minecraft/conn.go:621-651 | In every run, what was read and what is queued are the packets that arrived, in the order deferred |
| `Deferred.Interleave` | minecraft/conn.go:621-666 | The queue as it runs, over arrays and with a pooled decoder buffer that is overwritten, goes as the run of its turns: the reader gets the packets with the bytes they arrived with |
| `Admission.CountIsRight` | minecraft/listener.go:185-199 | For any number of connections and listeners of a group: the count is admitted minus released, which is the slots held now |
| `Admission.CountIsBounded` | minecraft/listener.go:185-199 | With a limit on every listener, the count stays between zero and the largest limit |
| `Admission.FailedSwap` | minecraft/listener.go:185-195 | A compare-and-swap that fails was preceded by a change of the count since it was read |
| `Admission.CloseWaits` | minecraft/listener.go:422-441 | When `Close` returns, every connection the listener admitted has released its slot exactly once |
| `Admission.RefusedIffFull` | minecraft/listener.go:185-195 | In every run, a connection is refused exactly if an attempt of it read a count at the positive limit of its listener |
| `Admission.SomeAttemptSucceeds` | minecraft/listener.go:185-195 | However attempts contend, with a limit or without: by the first compare-and-swap of an attempt begun after some point, a connection was admitted after that point, unless a slot was released meanwhile |
| `Varints.VaruintRoundTrip` | minecraft/protocol/varint.go:22-106 | For every 32- or 64-bit unsigned word, write then read is the identity and leaves what follows |
| `Varints.VarintRoundTrip` | minecraft/protocol/varint.go:9-95 | For every 32- or 64-bit signed word, write then read is the identity and leaves what follows |
| `Varints.SignedIsRead` | minecraft/protocol/writer.go:516-565 | What is written for a signed x is read, as a digit sum of at most 5 or 10 bytes, as 2x for x >= 0 and as -2x - 1 for x < 0 |
| `Varints.SignedOfDigits` | minecraft/protocol/varint.go:9-95 | Every input with the digit sum u is read as u / 2 for even and -(u / 2) - 1 for odd u, cut to the word; every other input is refused with the error of the digits |
| `Varints.ZigZagBijection` | minecraft/protocol/writer.go:516-565 | Zigzag and its inverse are a bijection between the signed and the unsigned words of a width |
| `Varints.WrittenVaruintIsShortest` | minecraft/protocol/writer.go:589-596 | No input read as a word is shorter than what is written for it, which takes at most 5 or 10 bytes |
| `WordBytes.VaruintBytes` | minecraft/protocol/writer.go:589-596 | Byte k of what is written for x is x / 128^k mod 128, with 128 added for all but the last byte, and there are no more of them than x takes |
| `WordBytes.DigitsBytes` | minecraft/protocol/reader.go:707-761 | With the first byte below 0x80 at k, what is read is the number below 128^(k+1) whose group j of seven bits is byte j modulo 128 |
| `Varints.DigitsOfTerminated` | minecraft/protocol/reader.go:707-761 | Where a byte below 0x80 comes within the limit of 5 or 10, an input is read as the 7-bit digit sum up to it, and where it comes later the varint is too long |
| `Varints.DigitsOfUnterminated` | minecraft/protocol/reader.go:707-761 | Where none comes within the limit, the input is not read: it overruns or the varint is too long |
| `Varints.ReadVaruintLoop` | minecraft/protocol/reader.go:707-761 | The loop of shifts and ors reads the digit sum modulo the word size, and fails where the specification does |
| `Varints.ReadVarintLoop` | minecraft/nbt/encoding.go:117-154 | The loop and the complement of odd words read u / 2 for an even and -(u / 2) - 1 for an odd digit sum u, cut to the word |
| `Varints.WriteVaruint` | minecraft/protocol/varint.go:78-106 | The loop of continuation bytes appends the variable-length form |
| `Varints.WriteVarint` | minecraft/nbt/encoding.go:59-93 | What shifting, complementing and the loop append is read, as a digit sum, as 2x for x >= 0 and as -2x - 1 for x < 0, and is the variable-length form of that number |
| `Endian.RotatedReads` | minecraft/nbt/encoding_little_endian.go:299-342 | Reversing every element in place and reading the memory in host order is reading every element in the other order, on both host builds |
| `Endian.RotateInt32s` | minecraft/nbt/encoding_little_endian.go:299-319 | The loop of byte swaps reverses every four-byte element |
| `Endian.RotateInt64s` | minecraft/nbt/encoding_big_endian.go:321-342 | The loop of byte swaps reverses every eight-byte element |
| `Endian.WordsRoundTrip` | minecraft/nbt/encoding_big_endian.go:141-170 | An array read back from its per-element writes is the array |
| `NbtLayout.FixedRead` | minecraft/nbt/encoding_little_endian.go:20-120 | For every encoding by its name, on both hosts: the n-byte number read has byte k of the input at x / 256^k mod 256 in LittleEndian and NetworkLittleEndian and at x / 256^(n-1-k) mod 256 in the others, lies in the range of its type, and leaves the rest; fewer bytes are refused |
| `NbtLayout.DocumentWritten` | minecraft/nbt/encode.go:106-307 | The bytes of a whole document for every encoding by its name and in arithmetic of bytes: tag numbers, names and strings behind their lengths, every number byte by byte, lists, arrays, compounds and their end; and the encoder refuses exactly trees of 512 levels or with a string above 32767 bytes |
| `NbtFormat.BlockReadsEach` | minecraft/nbt/reader.go:62-83 | Taking all bytes of an array at once agrees with the scalar reader, for every count and every input |
| `NbtFormat.IntsRoundTrip` | minecraft/nbt/encoding.go:189-226 | A length and integers written one by one are read back, in every encoding and on both hosts |
| `NbtTree.EncodableIffWritten` | minecraft/nbt/encode.go:106-307 | The encoder accepts a tree exactly if its strings and names are short enough and no tag is 512 levels down |
| `NbtDecode.DecodePrefix` | minecraft/nbt/decode.go:152-493 | A document that decodes does so the same way with any bytes behind it, and leaves them |
| `NbtDecode.DepthGrows` | minecraft/nbt/decode.go:321-406 | The depth after a payload is the depth before it plus the lists of bytes, ints and longs read |
| `NbtRoundTrip.DecodeOfEncode` | minecraft/nbt/decode.go:525-546 | For every sound tree that is written, in every encoding, on both hosts, whatever follows: decoding returns the tree and leaves the rest exactly if the walk of depth and offset goes through, and otherwise fails with the walk's error |
| `NbtValues.RoundTrip` | minecraft/nbt/encode.go:106-255 | For every Go value and every order of its maps' keys: what is decoded is the normal form of the value, in which only lists differ |
| `NbtValues.DecodeEncodeDecode` | minecraft/nbt/decode.go:125-149 | Whatever was decoded, in every encoding on both hosts and in any key order, is encoded again exactly if no string or name is above 32767 bytes, and decoding that gives the same value if the walk goes through |
| `NbtOrders.EveryOrderReads` | minecraft/nbt/decode.go:321-406 | A Go value the encoder accepts is read back in every order of its keys if and only if nesting and typed lists of the value keep the bound of the worst order, and on the network its last tag comes within 4 MiB |
| `NbtOrders.OrderReadsIff` | minecraft/nbt/decode.go:525-546 | An order is read back exactly if the depth at each of its tags and the offset of its last one are within the limits |
| `NbtOrders.DocumentRead` | minecraft/nbt/decode.go:125-149 | The bytes that `NbtLayout.Document` spells out are read as the value, in every encoding, with any bytes behind them, exactly if depth and offset keep the bounds |
| `NbtOrders.OrderMatters` | minecraft/nbt/decode.go:125-149 | A document that decodes, and its value written in another key order, which does not decode |
| `NbtOrders.LeakBreaksRoundTrip` | minecraft/nbt/decode.go:321-406 | In every encoding, a compound of empty int lists is written whatever their number, and read back exactly if there are at most 510, and on the network at most 4 MiB |
| `NbtDecoder.DecodeValue` | minecraft/nbt/decode.go:42-64 | The decoder as it runs returns the value and the rest that the specification says, or its error; of which bytes that is the value, `NbtOrders.DocumentRead` says |
| `NbtEncoder.AcceptedIffEncodable` | minecraft/nbt/encode.go:295-307 | Whether a value is accepted does not depend on the order in which the keys of its maps are visited |
| `NbtEncoder.Encoder.EncodePayload` | minecraft/nbt/encode.go:125-255 | The encoder as it runs succeeds exactly on accepted values, appends the encoding in some order of the keys, and restores its depth |
| `NbtEncoder.EncodeValue` | minecraft/nbt/encode.go:46-75 | A whole document is written exactly for accepted values, as the bytes `NbtLayout.Document` spells out for the value in some order of its keys |
| `Fields.SameWidthKeeps` | minecraft/protocol/io.go:177-181 | Converting between integer types of one width and back loses nothing |
| `Fields.NumberRoundTrip` | minecraft/protocol/reader_little_endian.go:11-90 | A fixed-width number is read back without a short read |
| `Fields.TextRoundTrip` | minecraft/protocol/reader.go:85-114 | A string behind its varuint32 length is read back |
| `Fields.ShortTextRoundTrip` | minecraft/protocol/reader.go:69-82 | A string of at most 32767 bytes behind its int16 length is read back |
| `Fields.NumberIndependentIff` | minecraft/protocol/reader_little_endian.go:20-26 | A number that is read is independent of what follows exactly if the input holds all its bytes; otherwise every suffix changes the value or what is left |
| `ShapeReading.ReadingPrefix` | minecraft/protocol/io.go:85-215 | For every shape: a value read without a short read is read the same with any bytes behind it, and leaves them |
| `ShapeReading.ReadingIndependentIff` | minecraft/protocol/reader.go:611-628 | For every shape: a value that was read is independent of what follows exactly if no fixed-width number in it was cut short by the end of the input; otherwise every suffix changes the value or what is left |
| `ShapeRoundTrip.ReadsBack` | minecraft/protocol/io.go:85-215 | For every shape, every value and whatever follows: the reader returns the value (numbers cast, compounds as NBT reads them) and stands behind it exactly if the verdict is empty, and otherwise fails with the verdict's error |
| `ShapeRoundTrip.SliceBack` | minecraft/protocol/io.go:129-155 | A slice is read back, or refused by SliceLength, exactly as its count, the limit and the bytes that follow say |
| `ShapeRoundTrip.TagBack` | minecraft/protocol/reader.go:479-497 | The case of a union is read back from each of the five ways it is marked |
| `ShapeRoundTrip.ItemBack` | minecraft/protocol/writer.go:359-390 | An item's head and its user data, through the nested buffer, the embedded NBT, the lists and the tick, are read back or refused as the verdict says |
| `ShapeLimits.AcceptedIffWithin` | minecraft/protocol/reader.go:611-618 | Where every slice element takes a byte, the reader accepts exactly what keeps to the 1024 limit, the NBT limits and its shield, whatever follows: SliceLength never refuses for the bytes left |
| `ShapeLimits.GroundedRoundTrip` | minecraft/protocol/io.go:85-215 | For such shapes: read back if and only if within the limits |
| `ShapeLimits.EmptyElements` | minecraft/protocol/reader.go:615-617 | A slice of elements without bytes is accepted exactly if at least as many bytes follow it as it has elements |
| `ShapeKept.LosslessIsKept` | minecraft/protocol/io.go:177-215 | A value whose numbers fit the wire and whose left-out fields are blank comes back unchanged |
| `ShapeIO.IO.Marshal` | minecraft/protocol/io.go:85-215 | One body for both directions: reading does what `Dec` says to the input and the scratch buffer; writing appends what `Enc` says and leaves `Settle` of the value behind, which is the value but for the numbers that `IntegerFunc` stores back; for every shape |
| `ShapeIO.IO.SliceOfLen` | minecraft/protocol/io.go:129-155 | The loop over the elements reads or writes exactly so many of them, and stops at the first error |
| `ShapeIO.IO.IntegerFunc` | minecraft/protocol/io.go:177-181 | The field is converted to the wire type and back, on writing too |
| `ShapeIO.IO.Parts` | minecraft/protocol/reader.go:445-476 | The nested buffer of the user data, read or written by a reader or writer of its own |
| `Items.StackRoundTrip` | minecraft/protocol/writer.go:331-338 | Every item stack is read back with its user data: without it where the network ID is zero, with the tick only for a shield; or the reader fails, exactly when a list is above the limit or NBT refuses the compound |
| `Items.InstanceRoundTrip` | minecraft/protocol/reader.go:387-408 | Every item instance is read back with 16 bits of its network ID; the reader fails also where only those make it a shield |
| `Items.RequestItemRoundTrip` | minecraft/protocol/reader.go:422-443 | Every stack request item is read back; without an identifier only its count and block are |
| `Items.NbtData` | minecraft/protocol/reader.go:208-215 | As a Go map, the compound read back is the NBT normal form of the one written |
| `ItemLayout.StackLayout` | minecraft/protocol/writer.go:331-338 | The bytes of a stack: varint of the ID, two bytes of count, varuint of the metadata, varint of the block; then a zero for no item, and behind its length the user data of one, which is -1, 1 and the NBT bytes or a zero length, the two lists, and eight bytes of tick exactly for a shield |
| `ItemLayout.InstanceLayout` | minecraft/protocol/writer.go:311-328 | The bytes of an instance, with the stack network ID as two bytes of ID, and its presence and a varint; it has content and a tick by the ID in full |
| `ItemLayout.RequestItemLayout` | minecraft/protocol/writer.go:341-357 | The bytes of a request item: its name, count, metadata, block and user data, with a tick exactly if the name is minecraft:shield |
| `Requests.ActionIdsAgree` | minecraft/protocol/item_stack.go:47-52 | The variant of an action leads the reader back to its ID for every ID but the two that are never sent |
| `Requests.VariantsDiffer` | minecraft/protocol/item_stack.go:55-146 | Two sent actions never share a variant |
| `Requests.RequestRoundTrip` | minecraft/protocol/item_stack.go:38-43 | Any list of any stack request actions, with its ingredient and result lists, is read back if and only if it keeps to the limits, and unchanged where nothing is cast; `Actions` and `StackRequests` say in which bytes |
| `Actions.ActionSends` | minecraft/protocol/item_stack.go:47-646 | For each of the 19 actions with its Go fields: it is sent as its variant, its ID and its fields in order, spelled out byte by byte, and the value read has the same variant, ID and fields |
| `Actions.ActionIsRead` | minecraft/protocol/item_stack.go:100-146 | The bytes of an action are read as that action with any bytes behind them, or refused where a list is above its limit or NBT refuses a compound |
| `Actions.DescriptorSends` | minecraft/protocol/item_descriptor.go:19-135 | For each descriptor with its Go fields: its kind in the two tags and its fields in order |
| `Layouts.Converted` | minecraft/protocol/io.go:177-181 | A cast to a Go integer type gives the one number in the range of the type that differs by a multiple of 2^bits |
| `StackRequests.RequestSends` | minecraft/protocol/item_stack.go:20-46 | A request is sent as the varint of its ID, the number of its actions and they in order, its filter strings behind theirs, and four bytes of cause |
| `StackRequests.RequestIsRead` | minecraft/protocol/item_stack.go:20-46 | These bytes are read as that request with any bytes behind them, or refused where a list is above its limit or NBT refuses a compound |
| `Requests.IngredientCount` | minecraft/protocol/item_descriptor.go:94-123 | The count of an ingredient is read back modulo 65536, so unchanged exactly if it fits 16 bits |
| `Requests.WrittenIffKnown` | minecraft/protocol/data_store.go:124-149 | A data store value is written exactly if every type in it is known |
| `Requests.StoreRoundTrip` | minecraft/protocol/data_store.go:124-149 | Any nesting of lists and maps decodes to itself, exactly if no list is above the limit |
| `DataStores.StoreSends` | minecraft/protocol/data_store.go:97-149 | For each type of value with its Go value, at any depth: four bytes of type, and the value byte by byte, lists behind their number |
| `DataStores.StoreIsRead` | minecraft/protocol/data_store.go:97-149 | These bytes are read as that value with any bytes behind them, or refused where a list or map has more than 1024 elements |
| `Metadata.BytesDependOnTheMap` | minecraft/protocol/writer.go:228-282 | Keys are written strictly increasing, and the bytes are the same for every order in which Go visits them |
| `Metadata.MetadataRoundTrip` | minecraft/protocol/reader.go:291-347 | Reading rebuilds the map, with compounds as NBT reads them, exactly unless NBT refuses one of them |
| `Metadata.PlainMetadata` | minecraft/protocol/reader.go:291-347 | A map without compounds is rebuilt as it was |
| `MetadataLayout.ValueSends` | minecraft/protocol/writer.go:240-280 | For each of the nine types with its Go value: the type's number twice and the value byte by byte |
| `MetadataLayout.MapLayout` | minecraft/protocol/writer.go:228-282 | A map is written as the number of its entries and, by increasing key, each key and value in those bytes |
| `MetadataLayout.MapIsRead` | minecraft/protocol/reader.go:291-347 | These bytes are read as that map with any bytes behind them, or refused where NBT refuses a compound |
| `Metadata.WriteMetadata` | minecraft/protocol/writer.go:228-282 | Collecting, sorting and the loop over the keys write what the specification says |
| `Metadata.ReadMetadata` | minecraft/protocol/reader.go:291-347 | The loop fills the map entry by entry, a later entry replacing an earlier one of its key |
| `Bitsets.BitsetRoundTrip` | minecraft/protocol/writer.go:460-477 | Every value below 2^size of a bitset of at least one bit is read back; of a bitset without bits what is written is refused |
| `Bitsets.AcceptsBelowSize` | minecraft/protocol/reader.go:552-570 | The reader accepts exactly the variable-length integers of at most ceil(size / 7) bytes with a value below 2^size |
| `Bitsets.SetBitStaysBelow` | minecraft/protocol/bitset.go:20-34 | Setting or clearing a bit inside the bitset keeps the value below 2^size |
| `Bitsets.BitIsDigit` | minecraft/protocol/bitset.go:38-43 | Bit i of x is set exactly if x / 2^i is odd |
| `Bitsets.SetBitIsDigit` | minecraft/protocol/bitset.go:20-34 | Setting or clearing bit i adds or takes 2^i where the bit was another one, and leaves the rest of the number |
| `Bitsets.Bitset.Set` | minecraft/protocol/bitset.go:20-25 | Exactly the given bit is set; an index outside panics and changes nothing |
| `Bitsets.Bitset.Unset` | minecraft/protocol/bitset.go:29-34 | Exactly the given bit is cleared; an index outside panics and changes nothing |
| `Bitsets.Bitset.Write` | minecraft/protocol/writer.go:460-477 | The loop over the big integer writes its variable-length form and never looks at an empty word list |
| `Bitsets.ReadBitset` | minecraft/protocol/reader.go:552-570 | The loop of shifts and ors reads the value, which fits the size, or overflows |

## Left out

* The batch encoder and decoder, compression algorithms and ciphers: a batch carries the mode it was encoded in, and one
  that does not meet its mode fails.
* Login parsing, chain verification, OIDC and key exchange: parsing either yields the packet the model handles or fails
  (`Malformed`); whether encryption is enabled is part of the configuration.
* Other protocol versions and the legacy branch in which Login comes first: packets are those of the default protocol.
* `StartGame` is called once, with a connection that `Accept` returned; a second call is not modelled.
* Timers, deadlines, the delay between chunks, contexts, `Close` in the middle of a login, and the closing of a connection
  after a handler's error: a failed side stops.
* The pack cache and archives: a pack is its bytes, reading an archive that was downloaded finds the pack of these bytes,
  and the dialer's callback and cache are a verdict per pack. Packs with a download URL are not modelled.
* Packs without bytes, with behaviours, or of a chunk size of zero: the first issue no request, the second are looked up
  without their behaviours in the stack, the last makes the code panic. The theorems are about the others.
* The contents of the game packets (game data, items, dimensions): the packets are names, except for what the transfer and
  the login need.
* Lengths of 2 GiB and more, and int32 counters that wrap around: counts and lengths are unbounded where no cast is.
* `append`'s growth: a bigger array of any size.
* Struct decoding of NBT, `NBTList` and `Dump`; which error the decoder returns for a root tag that is not a compound
  (the model says `WrongType`); floats are bit patterns.
* Typed Go slices other than `[]byte`, `[]int32` and `[]int64`: an empty `[]string` is written with the tag of its
  elements, where the model's empty list has none; read back, both are the same untyped empty list.
* Bools other than 0 and 1 on the wire are read as true; nil and empty slices and maps are not told apart, and neither are
  a nil descriptor and an invalid one.
* The recipe form `ItemDescriptorCount`, `ItemStackResponse`, events, transactions, game rules and the flat packet structs:
  more instances of the same shapes. `ByteFloat`, `SoundPos`, `RGB` and `MaterialReducer`: their readers do not invert
  their writers.
- ShapeIO.IO.NBT: takes the keys of a map in a given order and uses the functions `Encode` and `DecCompound`; the loops over
  maps are those of `NbtEncoder.Encoder` and `NbtDecoder.Decoder`.
- ShapeRoundTrip.ReadsBack: is about encodings of at most 2 GiB - 1 bytes, and 16-bit strings of at most 32767.
- Metadata.WriteMetadata: `sort.Ints` is the function `Sorted`.
- SessionTheorems.Completion: says where a run ends that cannot go on, and `Termination` that it gets there; that schedulers
  are fair is not modelled.
- SendBuffer.Interleave: a slice that a caller of `Write` uses again changes between two steps, not during one.
